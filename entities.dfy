/**
 * The arena's stored records (the Django models of the ai_model, chat_session, message,
 * feedback, model_metrics and user apps) as immutable values. Stores that the source updates
 * in place hold maps of these values. Identifiers are opaque strings and timestamps are
 * whole seconds.
 */
module Entities {
  import opened Wrappers

  type Id = string

  const SECONDS_PER_DAY: int := 86400

  /** The HTTP methods Django REST framework treats as read-only. */
  const SAFE_METHODS: set<string> := {"GET", "HEAD", "OPTIONS"}

  /** The calendar day (UTC) of a timestamp in seconds. */
  function Day(t: int): int { t / SECONDS_PER_DAY }

  // ---------------------------------------------------------------- ai models

  datatype AIModel = AIModel(
    id: Id,
    provider: string,
    modelName: string,
    modelCode: string,
    displayName: string,
    description: string,
    capabilities: seq<string>,
    isActive: bool,
    config: map<string, string>)

  // ---------------------------------------------------------------- chat sessions

  const MODE_DIRECT: string := "direct"
  const MODE_COMPARE: string := "compare"
  const MODE_RANDOM: string := "random"

  predicate IsSessionMode(mode: string)
  {
    mode in {MODE_DIRECT, MODE_COMPARE, MODE_RANDOM}
  }

  datatype ChatSession = ChatSession(
    id: Id,
    user: Id,
    mode: string,
    title: string,
    modelA: Option<Id>,
    modelB: Option<Id>,
    isPublic: bool,
    shareToken: Option<string>,
    createdAt: int,
    expiresAt: Option<int>,
    metadata: map<string, string>)

  // ---------------------------------------------------------------- messages

  const ROLE_USER: string := "user"
  const ROLE_ASSISTANT: string := "assistant"
  const ROLE_SYSTEM: string := "system"

  const STATUS_PENDING: string := "pending"
  const STATUS_STREAMING: string := "streaming"
  const STATUS_SUCCESS: string := "success"
  const STATUS_FAILED: string := "failed"

  const PARTICIPANT_A: string := "a"
  const PARTICIPANT_B: string := "b"

  predicate IsRole(role: string) { role in {ROLE_USER, ROLE_ASSISTANT, ROLE_SYSTEM} }

  predicate IsStatus(status: string)
  {
    status in {STATUS_PENDING, STATUS_STREAMING, STATUS_SUCCESS, STATUS_FAILED}
  }

  predicate IsParticipant(p: Option<string>) { p == Some(PARTICIPANT_A) || p == Some(PARTICIPANT_B) }

  /** A value of a message's JSON `metadata` dictionary. */
  datatype MetaValue = MetaInt(i: int) | MetaReal(r: real) | MetaText(text: string)

  datatype Message = Message(
    id: Id,
    session: Id,
    role: string,
    content: string,
    model: Option<Id>,
    parents: seq<Id>,
    children: seq<Id>,
    position: int,
    participant: Option<string>,
    status: string,
    failureReason: Option<string>,
    createdAt: int,
    metadata: map<string, MetaValue>)

  /** A message as the model's field defaults leave it: no links, status pending. */
  function NewMessage(id: Id, session: Id, role: string, content: string, position: int, createdAt: int): (m: Message)
    ensures m.parents == [] && m.children == []
    ensures m.status == STATUS_PENDING && IsStatus(m.status)
    ensures m.model == None && m.participant == None && m.failureReason == None && m.metadata == map[]
    ensures m.id == id && m.session == session && m.role == role && m.content == content
  {
    Message(id, session, role, content, None, [], [], position, None, STATUS_PENDING, None, createdAt, map[])
  }

  const RELATION_REPLY: string := "reply"
  const RELATION_BRANCH: string := "branch"
  const RELATION_MERGE: string := "merge"

  predicate IsRelationType(t: string) { t in {RELATION_REPLY, RELATION_BRANCH, RELATION_MERGE} }

  datatype MessageRelation = MessageRelation(parent: Id, child: Id, relationType: string)

  /** At most one relation per (parent, child) pair. */
  ghost predicate RelationsUnique(rels: seq<MessageRelation>)
  {
    forall i, j :: 0 <= i < j < |rels| ==> (rels[i].parent, rels[i].child) != (rels[j].parent, rels[j].child)
  }

  // ---------------------------------------------------------------- feedback

  const FEEDBACK_PREFERENCE: string := "preference"
  const FEEDBACK_RATING: string := "rating"
  const FEEDBACK_REPORT: string := "report"

  datatype Feedback = Feedback(
    id: Id,
    user: Id,
    session: Id,
    message: Option<Id>,
    feedbackType: string,
    preferred: Option<Id>,
    rating: Option<int>,
    categories: seq<string>,
    comment: string,
    createdAt: int)

  // ---------------------------------------------------------------- model metrics

  const PERIOD_DAILY: string := "daily"
  const PERIOD_WEEKLY: string := "weekly"
  const PERIOD_MONTHLY: string := "monthly"
  const PERIOD_ALL_TIME: string := "all_time"

  predicate IsPeriod(p: string) { p in {PERIOD_DAILY, PERIOD_WEEKLY, PERIOD_MONTHLY, PERIOD_ALL_TIME} }

  const METRIC_CATEGORIES: seq<string> :=
    ["overall", "text", "code", "creative", "reasoning", "translation", "summarization", "conversation"]

  predicate IsMetricCategory(c: string) { c in METRIC_CATEGORIES }

  const DEFAULT_ELO: int := 1500

  /** The (model, category, period) key under which the latest record of a series is kept. */
  datatype MetricKey = MetricKey(model: Id, category: string, period: string)

  datatype ModelMetric = ModelMetric(
    model: Id,
    category: string,
    period: string,
    totalComparisons: int,
    wins: int,
    losses: int,
    ties: int,
    averageRating: Option<real>,
    eloRating: int,
    calculatedAt: int)
  {
    function Key(): MetricKey { MetricKey(model, category, period) }

    /** The `win_rate` property, as a percentage. */
    function WinRate(): (r: real)
      ensures totalComparisons == 0 ==> r == 0.0
      ensures 0 <= wins <= totalComparisons ==> 0.0 <= r <= 100.0
      ensures 0 < totalComparisons ==> r * totalComparisons as real == wins as real * 100.0
    {
      if totalComparisons == 0 then 0.0
      else (wins as real / totalComparisons as real) * 100.0
    }
  }

  /** A record created with the model's field defaults: zero counters and the default rating. */
  function NewMetric(model: Id, category: string, period: string, at: int): (m: ModelMetric)
    ensures m.Key() == MetricKey(model, category, period)
    ensures m.totalComparisons == m.wins == m.losses == m.ties == 0
    ensures m.eloRating == DEFAULT_ELO && m.averageRating == None
  {
    ModelMetric(model, category, period, 0, 0, 0, 0, None, DEFAULT_ELO, at)
  }

  /** Every record is stored under its own key, so a key names at most one record. */
  ghost predicate KeysConsistent(records: map<MetricKey, ModelMetric>)
  {
    forall k :: k in records ==> records[k].Key() == k
  }

  // ---------------------------------------------------------------- users

  const PROVIDER_GOOGLE: string := "google"
  const PROVIDER_ANONYMOUS: string := "anonymous"

  datatype User = User(
    id: Id,
    email: Option<string>,
    displayName: string,
    authProvider: string,
    firebaseUid: Option<string>,
    isAnonymous: bool,
    anonymousExpiresAt: Option<int>,
    isActive: bool)
}
