/**
 * The request checks of the message app: the fields and the cross-field `validate` of the
 * create, stream, branch and regenerate serializers, and the two object permissions.
 * A check either passes the (possibly rewritten) request on or reports why it refused.
 */
module MessageRules {
  import opened Wrappers
  import opened Entities
  import Text
  import Fields
  import MessageStore

  // ---------------------------------------------------------------- create

  /** The fields of a message creation request. */
  datatype CreateRequest = CreateRequest(
    role: string,
    content: string,
    modelId: Option<Id>,
    parentIds: seq<Id>,
    participant: Option<string>)

  const INVALID_UUID: string := "Must be a valid UUID."

  /**
   * The `model_id` UUID field of a JSON body, then `validate_model_id`: an absent or null id
   * passes, an empty one is not a UUID, and any other must name an active model.
   */
  function ValidateModelId(modelId: Option<Id>, activeModels: set<Id>): (r: Result<Option<Id>>)
    ensures r.Ok? <==> modelId.None? || (modelId.value != "" && modelId.value in activeModels)
    ensures modelId == Some("") ==> r == Err(INVALID_UUID)
    ensures r.Ok? ==> r.value == modelId
  {
    if modelId == Some("") then Err(INVALID_UUID)
    else if modelId.Some? && modelId.value !in activeModels then Err("Model not found or inactive")
    else Ok(modelId)
  }

  /** `validate_parent_message_ids`: every listed parent must be a stored message. */
  function ValidateParents(parentIds: seq<Id>, stored: set<Id>): (r: Result<seq<Id>>)
    ensures r.Ok? <==> forall p :: p in parentIds ==> p in stored
    ensures r.Ok? ==> r.value == parentIds
  {
    if exists p :: p in parentIds && p !in stored then Err("Parent messages not found") else Ok(parentIds)
  }

  /**
   * `MessageCreateSerializer.validate`: an assistant message of a compare session must be
   * participant a or b; an assistant message takes its model from the session (model A in
   * direct mode, the participant's model in compare mode), whatever the request said.
   */
  function ValidateCreate(session: ChatSession, req: CreateRequest): (r: Result<CreateRequest>)
    ensures r.Err? <==> session.mode == MODE_COMPARE && req.role == ROLE_ASSISTANT && !IsParticipant(req.participant)
    ensures r.Ok? ==> r.value == req.(modelId := r.value.modelId)
    ensures r.Ok? && req.role == ROLE_ASSISTANT && session.mode == MODE_DIRECT ==> r.value.modelId == session.modelA
    ensures r.Ok? && req.role == ROLE_ASSISTANT && session.mode == MODE_COMPARE ==>
              r.value.modelId == (if req.participant == Some(PARTICIPANT_A) then session.modelA else session.modelB)
    ensures r.Ok? && !(req.role == ROLE_ASSISTANT && session.mode in {MODE_DIRECT, MODE_COMPARE}) ==> r.value == req
  {
    if session.mode == MODE_COMPARE && req.role == ROLE_ASSISTANT && !IsParticipant(req.participant) then
      Err("Participant must be 'a' or 'b' for assistant messages in compare mode")
    else if session.mode == MODE_DIRECT && req.role == ROLE_ASSISTANT then
      Ok(req.(modelId := session.modelA))
    else if session.mode == MODE_COMPARE && req.role == ROLE_ASSISTANT then
      if req.participant == Some(PARTICIPANT_A) then Ok(req.(modelId := session.modelA))
      else Ok(req.(modelId := session.modelB))
    else Ok(req)
  }

  /** The participant field of the model: 'a', 'b' or blank, or null. */
  const PARTICIPANT_FIELD: set<string> := {PARTICIPANT_A, PARTICIPANT_B, ""}

  /**
   * The whole serializer: the fields of the model (a role among its choices, a required
   * non-blank content that is trimmed, a participant among its choices), the two field
   * validators, then `validate` on the trimmed request.
   */
  function ValidateCreateRequest(session: ChatSession, req: CreateRequest, activeModels: set<Id>, stored: set<Id>)
    : (r: Result<CreateRequest>)
    ensures r.Ok? <==> IsRole(req.role) && Text.Strip(req.content) != []
                       && ValidateModelId(req.modelId, activeModels).Ok? && ValidateParents(req.parentIds, stored).Ok?
                       && (req.participant.None? || req.participant.value in PARTICIPANT_FIELD)
                       && ValidateCreate(session, req).Ok?
    ensures r.Ok? ==> r == ValidateCreate(session, req.(content := Text.Strip(req.content)))
  {
    var role := Fields.ChoiceField(Some(req.role), true, {ROLE_USER, ROLE_ASSISTANT, ROLE_SYSTEM});
    var content := Fields.CharField(Some(req.content), true, false, None);
    var model := ValidateModelId(req.modelId, activeModels);
    var parents := ValidateParents(req.parentIds, stored);
    var participant := Fields.ChoiceField(req.participant, false, PARTICIPANT_FIELD);
    if role.Err? then Err(role.error)
    else if content.Err? then Err(content.error)
    else if model.Err? then Err(model.error)
    else if parents.Err? then Err(parents.error)
    else if participant.Err? then Err(participant.error)
    else ValidateCreate(session, req.(content := content.value.value))
  }

  /**
   * A request the serializer accepts passes the participant check of `Message.save`, so
   * creating it fails only through its parent list, and in compare mode an assistant
   * message gets the model of the side it answers for.
   */
  lemma ValidatedCreateSaves(session: ChatSession, req: CreateRequest, activeModels: set<Id>, stored: set<Id>)
    requires ValidateCreateRequest(session, req, activeModels, stored).Ok?
    ensures var v := ValidateCreateRequest(session, req, activeModels, stored).value;
            !(session.mode == MODE_COMPARE && v.role == ROLE_ASSISTANT && !IsParticipant(v.participant))
            && (forall p :: p in v.parentIds ==> p in stored)
            && (v.role == ROLE_ASSISTANT && session.mode == MODE_COMPARE ==>
                  v.modelId == MessageStore.ChooseModel(session, None, v.participant))
  {
  }

  // ---------------------------------------------------------------- stream

  /** The fields of a streaming request; a missing or null field is None. */
  datatype StreamRequest = StreamRequest(
    role: Option<string>,
    content: Option<string>,
    modelId: Option<Id>,
    participant: Option<string>,
    status: Option<string>,
    temperature: Option<real>,
    maxTokens: Option<int>)

  /** A streaming request after its fields are trimmed and its defaults filled in. */
  datatype StreamSettings = StreamSettings(role: string, content: Option<string>, modelId: Option<Id>,
                                           participant: Option<string>, status: string, temperature: real, maxTokens: int)

  const DEFAULT_TEMPERATURE: real := 0.7
  const DEFAULT_MAX_TOKENS: int := 2000
  const MAX_TOKENS_LIMIT: int := 8000

  /** The shared bounds of the temperature and max_tokens fields. */
  predicate InBounds(temperature: real, maxTokens: int)
  {
    0.0 <= temperature <= 2.0 && 1 <= maxTokens <= MAX_TOKENS_LIMIT
  }

  /** An optional `CharField` that refuses blank: absent, or non-blank once trimmed. */
  predicate AbsentOrFilled(v: Option<string>)
  {
    v.None? || Text.Strip(v.value) != []
  }

  /**
   * The field checks of `MessageStreamSerializer`: a required non-blank role; optional
   * non-blank model id and participant; optional content that may be blank or null; every
   * text trimmed; the status one of the four message statuses; the temperature, default
   * 0.7, in [0, 2] and max_tokens, default 2000, in [1, 8000].
   */
  function StreamFields(req: StreamRequest): (r: Result<StreamSettings>)
    ensures r.Ok? <==> req.role.Some? && Text.Strip(req.role.value) != []
                       && AbsentOrFilled(req.modelId) && AbsentOrFilled(req.participant)
                       && req.status.Some? && IsStatus(req.status.value)
                       && InBounds(if req.temperature.Some? then req.temperature.value else DEFAULT_TEMPERATURE,
                                   if req.maxTokens.Some? then req.maxTokens.value else DEFAULT_MAX_TOKENS)
    ensures r.Ok? ==> r.value.role == Text.Strip(req.role.value) && r.value.content == Fields.Trimmed(req.content)
                      && r.value.modelId == Fields.Trimmed(req.modelId) && r.value.participant == Fields.Trimmed(req.participant)
                      && r.value.status == req.status.value && InBounds(r.value.temperature, r.value.maxTokens)
    ensures r.Ok? && req.temperature.None? ==> r.value.temperature == DEFAULT_TEMPERATURE
    ensures r.Ok? && req.maxTokens.None? ==> r.value.maxTokens == DEFAULT_MAX_TOKENS
  {
    var temperature := if req.temperature.Some? then req.temperature.value else DEFAULT_TEMPERATURE;
    var maxTokens := if req.maxTokens.Some? then req.maxTokens.value else DEFAULT_MAX_TOKENS;
    var content := Fields.CharField(req.content, false, true, None);
    var role := Fields.CharField(req.role, true, false, None);
    var model := Fields.CharField(req.modelId, false, false, None);
    var participant := Fields.CharField(req.participant, false, false, None);
    var status := Fields.ChoiceField(req.status, true, {STATUS_PENDING, STATUS_STREAMING, STATUS_SUCCESS, STATUS_FAILED});
    if role.Err? then Err(role.error)
    else if model.Err? then Err(model.error)
    else if participant.Err? then Err(participant.error)
    else if status.Err? then Err(status.error)
    else if !(0.0 <= temperature <= 2.0) then Err("temperature out of range")
    else if !(1 <= maxTokens <= MAX_TOKENS_LIMIT) then Err("max_tokens out of range")
    else Ok(StreamSettings(role.value.value, content.value, model.value, participant.value, req.status.value,
                           temperature, maxTokens))
  }

  /**
   * `MessageStreamSerializer`: the field checks, then `validate` on the trimmed values: an
   * assistant request must name an active model, and any other role needs non-empty content.
   */
  function ValidateStream(req: StreamRequest, activeModels: set<Id>): (r: Result<StreamSettings>)
    ensures r.Ok? <==> StreamFields(req).Ok?
                       && (Text.Strip(req.role.value) == ROLE_ASSISTANT ==>
                             req.modelId.Some? && Text.Strip(req.modelId.value) in activeModels)
                       && (Text.Strip(req.role.value) != ROLE_ASSISTANT ==>
                             req.content.Some? && Text.Strip(req.content.value) != [])
    ensures r.Ok? ==> r == StreamFields(req)
  {
    var fields := StreamFields(req);
    if fields.Err? then fields
    else
      var trimmed := fields.value;
      if trimmed.role == ROLE_ASSISTANT && !(trimmed.modelId.Some? && trimmed.modelId.value in activeModels) then
        Err("One or both models not found or inactive")
      else if trimmed.role != ROLE_ASSISTANT && !(trimmed.content.Some? && trimmed.content.value != "") then
        Err("This field is required when role is not \"assistant\".")
      else Ok(trimmed)
  }

  // ---------------------------------------------------------------- branch and regenerate

  const BRANCH_ALTERNATIVE: string := "alternative"
  const BRANCH_CONTINUATION: string := "continuation"

  datatype BranchRequest = BranchRequest(parent: Id, content: string, branchType: string)

  /** `MessageBranchSerializer`: a parent id and content non-blank once trimmed; the type is alternative (the default) or continuation. */
  function ValidateBranch(parent: Option<Id>, content: Option<string>, branchType: Option<string>): (r: Result<BranchRequest>)
    ensures r.Ok? <==> parent.Some? && content.Some? && Text.Strip(content.value) != []
                       && (branchType.None? || branchType.value in {BRANCH_ALTERNATIVE, BRANCH_CONTINUATION})
    ensures r.Ok? ==> r.value.branchType in {BRANCH_ALTERNATIVE, BRANCH_CONTINUATION}
                      && r.value.parent == parent.value && r.value.content == Text.Strip(content.value)
    ensures r.Ok? && branchType.None? ==> r.value.branchType == BRANCH_ALTERNATIVE
  {
    var text := Fields.CharField(content, true, false, None);
    if parent.None? then Err("parent_message_id: " + Fields.REQUIRED)
    else if text.Err? then Err("content: " + text.error)
    else if branchType.Some? && branchType.value !in {BRANCH_ALTERNATIVE, BRANCH_CONTINUATION} then
      Err("branch_type: \"" + branchType.value + "\" is not a valid choice.")
    else Ok(BranchRequest(parent.value, text.value.value, if branchType.Some? then branchType.value else BRANCH_ALTERNATIVE))
  }

  datatype RegenerateRequest = RegenerateRequest(temperature: real, maxTokens: int, useDifferentModel: bool, modelId: Option<Id>)

  /** `MessageRegenerateSerializer`: the stream bounds and defaults, and the flag off by default. */
  function ValidateRegenerate(temperature: Option<real>, maxTokens: Option<int>, useDifferentModel: Option<bool>,
                              modelId: Option<Id>): (r: Result<RegenerateRequest>)
    ensures r.Ok? <==> InBounds(if temperature.Some? then temperature.value else DEFAULT_TEMPERATURE,
                                if maxTokens.Some? then maxTokens.value else DEFAULT_MAX_TOKENS)
    ensures r.Ok? ==> InBounds(r.value.temperature, r.value.maxTokens) && r.value.modelId == modelId
    ensures r.Ok? ==> r.value.useDifferentModel == (useDifferentModel == Some(true))
    ensures r.Ok? && temperature.None? ==> r.value.temperature == DEFAULT_TEMPERATURE
    ensures r.Ok? && maxTokens.None? ==> r.value.maxTokens == DEFAULT_MAX_TOKENS
  {
    var t := if temperature.Some? then temperature.value else DEFAULT_TEMPERATURE;
    var n := if maxTokens.Some? then maxTokens.value else DEFAULT_MAX_TOKENS;
    if !InBounds(t, n) then Err("temperature or max_tokens out of range")
    else Ok(RegenerateRequest(t, n, useDifferentModel == Some(true), modelId))
  }

  /**
   * The regenerated message keeps the original's model unless the request both sets the
   * flag and names a model, whatever else it carries.
   */
  lemma RegenerateKeepsModelByDefault(original: Option<Id>, temperature: Option<real>, maxTokens: Option<int>,
                                      modelId: Option<Id>, models: set<Id>)
    requires ValidateRegenerate(temperature, maxTokens, None, modelId).Ok?
    ensures var req := ValidateRegenerate(temperature, maxTokens, None, modelId).value;
            MessageStore.RegeneratedModel(original, req.useDifferentModel, req.modelId, models) == Ok(original)
  {
  }

  // ---------------------------------------------------------------- serialized fields

  /** `get_children_count`: how many children a message lists. */
  function ChildrenCount(m: Message): (n: nat)
    ensures n == 0 <==> m.children == []
    ensures n == |m.children|
  {
    if m.children != [] then |m.children| else 0
  }

  // ---------------------------------------------------------------- permissions

  /** `IsMessageOwner`: the requester owns the message's session. */
  predicate IsMessageOwner(session: ChatSession, requester: Option<Id>)
  {
    requester == Some(session.user)
  }

  /** `CanAccessMessage`: anyone may see messages of a public session; otherwise only the owner. */
  predicate CanAccessMessage(session: ChatSession, requester: Option<Id>)
  {
    session.isPublic || IsMessageOwner(session, requester)
  }

  /** The owner may always access; for a private session access is exactly ownership. */
  lemma MessageAccessRules(session: ChatSession, requester: Option<Id>)
    ensures IsMessageOwner(session, requester) ==> CanAccessMessage(session, requester)
    ensures !session.isPublic ==> (CanAccessMessage(session, requester) <==> IsMessageOwner(session, requester))
    ensures session.isPublic ==> CanAccessMessage(session, requester)
  {
  }
}
