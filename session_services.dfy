/**
 * `ChatSessionService` (chat_session/services.py): the random-mode session, the creation
 * dispatch of the session view, and duplication of a session with its messages. The message
 * table is a map from id to message; fresh uuid4 ids, the clock and the random model sample
 * are inputs.
 */
module SessionServices {
  import opened Wrappers
  import opened Entities
  import Text
  import Ordering
  import MessageStore
  import SessionRules
  import ModelCatalog

  const RANDOM_SELECTION: string := "random_selection"
  const DUPLICATED_FROM: string := "duplicated_from"
  const DUPLICATED_AT: string := "duplicated_at"

  // ---------------------------------------------------------------- random sessions

  function RandomTitle(a: AIModel, b: AIModel): string
  {
    "Random: " + a.displayName + " vs " + b.displayName
  }

  /**
   * `create_session_with_random_models`: a failed selection is reported as a ValueError;
   * otherwise a random-mode session of the requester between the two selected models, whose
   * metadata records the selection (its method; the time is not kept).
   */
  function RandomSession(selection: Result<(AIModel, AIModel)>, id: Id, requester: User,
                         metadata: Option<map<string, string>>, now: int): (r: Result<ChatSession>)
    ensures r.Err? <==> selection.Err?
    ensures r.Err? ==> r.error == "Not enough active models for random comparison"
    ensures r.Ok? ==> r.value.mode == MODE_RANDOM && r.value.user == requester.id
    ensures r.Ok? ==> r.value.modelA == Some(selection.value.0.id) && r.value.modelB == Some(selection.value.1.id)
    ensures r.Ok? ==> r.value.title == RandomTitle(selection.value.0, selection.value.1)
    ensures r.Ok? ==> RANDOM_SELECTION in r.value.metadata && !r.value.isPublic
    ensures r.Ok? ==> r.value.expiresAt == (if requester.isAnonymous then requester.anonymousExpiresAt else None)
  {
    match selection
    case Err(_) => Err("Not enough active models for random comparison")
    case Ok((a, b)) =>
      var md := if metadata.Some? then metadata.value else map[];
      var raw := ChatSession(id, requester.id, MODE_RANDOM, RandomTitle(a, b), Some(a.id), Some(b.id), false, None,
                             now, None, md);
      // objects.create saves once; the metadata update saves again.
      var created := SessionRules.Saved(raw, None, requester);
      Ok(SessionRules.Saved(created.(metadata := created.metadata[RANDOM_SELECTION := "random"]), None, requester))
  }

  /**
   * `ChatSessionViewSet.create`: a validated random-mode request is served by the random
   * session (its title and models come from the selection); any other by the serializer.
   */
  function CreateSession(req: SessionRules.CreateRequest, catalog: map<Id, AIModel>, requester: User, id: Id,
                         now: int, selection: Result<(AIModel, AIModel)>): (r: Result<ChatSession>)
    ensures r.Ok? ==> SessionRules.Acceptable(req, catalog)
    ensures r.Ok? ==> r.value.mode == req.mode && r.value.user == requester.id
    ensures r.Ok? && req.mode == MODE_DIRECT ==> r.value.modelA == req.modelAId && r.value.modelB == None
    ensures r.Ok? && req.mode == MODE_COMPARE ==>
      r.value.modelA.Some? && r.value.modelB.Some? && r.value.modelA != r.value.modelB
    ensures |Text.Strip(req.title)| > SessionRules.TITLE_MAX_LENGTH ==> r.Err?
    ensures req.mode == MODE_RANDOM && |Text.Strip(req.title)| <= SessionRules.TITLE_MAX_LENGTH ==> (r.Ok? <==> selection.Ok?)
    ensures r.Ok? && req.mode == MODE_RANDOM ==>
      r.value.title == RandomTitle(selection.value.0, selection.value.1)
      && r.value.modelA == Some(selection.value.0.id) && r.value.modelB == Some(selection.value.1.id)
    ensures SessionRules.Acceptable(req, catalog) && req.mode != MODE_RANDOM ==> r.Ok?
    ensures r.Ok? && req.mode != MODE_RANDOM ==> r.value.title == Text.Strip(req.title)
  {
    SessionRules.ValidateCreateAccepts(req, catalog);
    match SessionRules.ValidateCreate(req, catalog)
    case Err(e) => Err(e)
    case Ok(choice) =>
      if choice.mode == MODE_RANDOM then RandomSession(selection, id, requester, Some(req.metadata), now)
      else Ok(SessionRules.CreatedSession(id, req, choice, requester, now))
  }

  /** With enough active models and distinct ids, a random request always succeeds, with two different models. */
  lemma RandomCreateSucceeds(req: SessionRules.CreateRequest, catalog: map<Id, AIModel>, models: seq<AIModel>,
                             requester: User, id: Id, now: int, pick: (nat, nat))
    requires req.mode == MODE_RANDOM
    requires |Text.Strip(req.title)| <= SessionRules.TITLE_MAX_LENGTH
    requires Ordering.CountIf(models, ModelCatalog.Candidate({}, None)) >= 2
    requires forall i, j :: 0 <= i < j < |models| ==> models[i].id != models[j].id
    ensures var r := CreateSession(req, catalog, requester, id, now, ModelCatalog.RandomModels(models, {}, None, pick));
            r.Ok? && r.value.modelA.Some? && r.value.modelB.Some? && r.value.modelA != r.value.modelB
  {
    ModelCatalog.RandomModelsDistinct(models, {}, None, pick);
  }

  // ---------------------------------------------------------------- duplication

  /** The title of a duplicate: the given non-empty title, or "Copy of " and the original's title or "Untitled". */
  function DuplicateTitle(s: ChatSession, newTitle: Option<string>): (t: string)
    ensures t != ""
    ensures newTitle.Some? && newTitle.value != "" ==> t == newTitle.value
    ensures !(newTitle.Some? && newTitle.value != "") ==>
      Text.StartsWith(t, "Copy of ") && t[8..] == (if s.title != "" then s.title else "Untitled")
  {
    if newTitle.Some? && newTitle.value != "" then newTitle.value
    else "Copy of " + (if s.title != "" then s.title else "Untitled")
  }

  /** The session record `duplicate_session` creates: the original's mode and models under a new owner. */
  function DuplicateRecord(s: ChatSession, newId: Id, requester: User, newTitle: Option<string>, now: int, nowIso: string): (d: ChatSession)
    ensures d.id == newId && d.user == requester.id
    ensures d.mode == s.mode && d.modelA == s.modelA && d.modelB == s.modelB
    ensures d.title == DuplicateTitle(s, newTitle) && !d.isPublic && d.shareToken == None
    ensures d.metadata.Keys == s.metadata.Keys + {DUPLICATED_FROM, DUPLICATED_AT}
    ensures d.metadata[DUPLICATED_FROM] == s.id && d.metadata[DUPLICATED_AT] == nowIso
    ensures d.expiresAt == (if requester.isAnonymous then requester.anonymousExpiresAt else None)
  {
    var raw := ChatSession(newId, requester.id, s.mode, DuplicateTitle(s, newTitle), s.modelA, s.modelB, false, None,
                           now, None, s.metadata[DUPLICATED_FROM := s.id][DUPLICATED_AT := nowIso]);
    SessionRules.Saved(raw, None, requester)
  }

  /** `[id_mapping.get(pid, pid) for pid in parents]`. */
  function Remap(parents: seq<Id>, mapping: map<Id, Id>): (r: seq<Id>)
    ensures |r| == |parents|
    ensures forall i :: 0 <= i < |parents| ==> r[i] == (if parents[i] in mapping then mapping[parents[i]] else parents[i])
  {
    seq(|parents|, i requires 0 <= i < |parents| => if parents[i] in mapping then mapping[parents[i]] else parents[i])
  }

  /** The copy of `m` in the new session: same role, content, model, position and participant, status success. */
  function CopyOf(m: Message, session: Id, newId: Id, mapping: map<Id, Id>, now: int): Message
  {
    Message(newId, session, m.role, m.content, m.model, Remap(m.parents, mapping), [], m.position, m.participant,
            STATUS_SUCCESS, None, now, m.metadata[DUPLICATED_FROM := MetaText(m.id)])
  }

  /** `id_mapping` after the first `n` copies: each copied original id to its copy's id. */
  function IdMapping(src: seq<Message>, ids: seq<Id>, n: nat): map<Id, Id>
    requires n <= |src| && n <= |ids|
  {
    if n == 0 then map[] else IdMapping(src, ids, n - 1)[src[n - 1].id := ids[n - 1]]
  }

  /** The mapping knows exactly the ids of the originals copied so far. */
  lemma {:induction false} IdMappingKeys(src: seq<Message>, ids: seq<Id>, n: nat, x: Id)
    requires n <= |src| && n <= |ids|
    ensures x in IdMapping(src, ids, n) <==> exists j :: 0 <= j < n && src[j].id == x
  {
    if n > 0 {
      IdMappingKeys(src, ids, n - 1, x);
      if src[n - 1].id == x {
        assert 0 <= n - 1 < n && src[n - 1].id == x;
      }
    }
  }

  /** With distinct original ids, the mapping sends each copied original to its own copy. */
  lemma {:induction false} IdMappingAt(src: seq<Message>, ids: seq<Id>, n: nat, j: nat)
    requires n <= |src| && n <= |ids| && j < n
    requires forall a, b :: 0 <= a < b < |src| ==> src[a].id != src[b].id
    ensures src[j].id in IdMapping(src, ids, n)
    ensures IdMapping(src, ids, n)[src[j].id] == ids[j]
  {
    if j < n - 1 {
      IdMappingAt(src, ids, n - 1, j);
    }
  }

  /**
   * The message table after the first `n` iterations of the copy loop: each copy is saved,
   * then added once to the child list of each of its parents that exists.
   */
  function Duplicated(store: map<Id, Message>, src: seq<Message>, session: Id, ids: seq<Id>, now: int, n: nat): map<Id, Message>
    requires n <= |src| && n <= |ids|
  {
    if n == 0 then store
    else
      var before := Duplicated(store, src, session, ids, now, n - 1);
      var c := CopyOf(src[n - 1], session, ids[n - 1], IdMapping(src, ids, n - 1), now);
      MessageStore.LinkOnceAll(before[c.id := c], c.parents, c.id)
  }

  /** A parent that does not exist is skipped by the linking loop. */
  lemma LinkOnceSkip(msgs: map<Id, Message>, parents: seq<Id>, i: nat, child: Id)
    requires i < |parents| && parents[i] !in msgs
    ensures MessageStore.LinkOnceAll(msgs, parents[..i + 1], child) == MessageStore.LinkOnceAll(msgs, parents[..i], child)
  {
    assert parents[..i + 1] == parents[..i] + [parents[i]];
  }

  /** The loop that adds a new message's id once to the child list of each existing parent. */
  method LinkParents(store: map<Id, Message>, parents: seq<Id>, child: Id) returns (out: map<Id, Message>)
    ensures out == MessageStore.LinkOnceAll(store, parents, child)
  {
    out := store;
    for i := 0 to |parents|
      invariant out == MessageStore.LinkOnceAll(store, parents[..i], child)
    {
      var p := parents[i];
      if p in store {
        MessageStore.LinkOnceStep(store, parents, i, child);
        assert out[p].children == MessageStore.LinkOnceAll(store, parents[..i], child)[p].children;
        if child !in out[p].children {
          out := out[p := out[p].(children := out[p].children + [child])];
        }
      } else {
        LinkOnceSkip(store, parents, i, child);
      }
    }
    assert parents[..|parents|] == parents;
  }

  /**
   * The message loop of `duplicate_session`: the messages of the original, in position
   * order, are copied one by one under the fresh ids `ids`. A copy that `Message.save`
   * refuses (an assistant of a compare session without participant a or b) ends the loop
   * with an error, and the copies already made stay.
   */
  method DuplicateMessages(store: map<Id, Message>, src: seq<Message>, session: Id, mode: string, ids: seq<Id>, now: int)
    returns (r: Result<map<Id, Id>>, out: map<Id, Message>)
    requires |ids| == |src|
    ensures r.Ok? <==> forall i :: 0 <= i < |src| ==> !MessageStore.SaveRefuses(src[i], mode)
    ensures r.Ok? ==> out == Duplicated(store, src, session, ids, now, |src|) && r.value == IdMapping(src, ids, |src|)
    ensures r.Err? ==> exists k :: 0 <= k < |src| && MessageStore.SaveRefuses(src[k], mode)
                        && (forall i :: 0 <= i < k ==> !MessageStore.SaveRefuses(src[i], mode))
                        && out == Duplicated(store, src, session, ids, now, k)
  {
    out := store;
    var mapping: map<Id, Id> := map[];
    for i := 0 to |src|
      invariant out == Duplicated(store, src, session, ids, now, i)
      invariant mapping == IdMapping(src, ids, i)
      invariant forall j :: 0 <= j < i ==> !MessageStore.SaveRefuses(src[j], mode)
    {
      var m := src[i];
      var copy := CopyOf(m, session, ids[i], mapping, now);
      if MessageStore.SaveRefuses(copy, mode) {
        r := Err("Participant must be 'a' or 'b' in compare mode");
        return;
      }
      out := out[copy.id := copy];
      mapping := mapping[m.id := copy.id];
      out := LinkParents(out, copy.parents, copy.id);
    }
    r := Ok(mapping);
  }

  /**
   * `duplicate_session`: the new session record, and the message table with the messages
   * copied when `includeMessages` is set (and untouched otherwise).
   */
  method DuplicateSession(s: ChatSession, store: map<Id, Message>, src: seq<Message>, requester: User,
                          includeMessages: bool, newTitle: Option<string>, newId: Id, ids: seq<Id>, now: int, nowIso: string)
    returns (r: Result<ChatSession>, out: map<Id, Message>)
    requires |ids| == |src|
    ensures r.Ok? ==> r.value == DuplicateRecord(s, newId, requester, newTitle, now, nowIso)
    ensures !includeMessages ==> r.Ok? && out == store
    ensures includeMessages && r.Ok? ==> out == Duplicated(store, src, newId, ids, now, |src|)
    ensures r.Err? <==> includeMessages && exists i :: 0 <= i < |src| && MessageStore.SaveRefuses(src[i], s.mode)
  {
    var d := DuplicateRecord(s, newId, requester, newTitle, now, nowIso);
    out := store;
    if includeMessages {
      var copied;
      copied, out := DuplicateMessages(store, src, newId, d.mode, ids, now);
      if copied.Err? {
        return Err(copied.error), out;
      }
    }
    r := Ok(d);
  }

  // ---------------------------------------------------------------- properties of the copy loop

  /** What the copy loop does to a message that exists: only its child list grows, by appending. */
  ghost predicate Grows(a: map<Id, Message>, b: map<Id, Message>)
  {
    a.Keys <= b.Keys
    && forall k :: k in a ==> b[k].(children := a[k].children) == a[k] && a[k].children <= b[k].children
  }

  /** Fresh ids: new to the table, and pairwise different. */
  ghost predicate FreshIds(store: map<Id, Message>, ids: seq<Id>)
  {
    (forall i :: 0 <= i < |ids| ==> ids[i] !in store)
    && (forall i, j :: 0 <= i < j < |ids| ==> ids[i] != ids[j])
  }

  /** `b` is `a` with a child list that extends `a`'s. */
  ghost predicate KeptMsg(a: Message, b: Message)
  {
    b.(children := a.children) == a && a.children <= b.children
  }

  lemma KeptMsgTransitive(a: Message, b: Message, c: Message)
    requires KeptMsg(a, b) && KeptMsg(b, c)
    ensures KeptMsg(a, c)
  {
  }

  /** Linking touches only the child lists of the parents, each by one append at most. */
  lemma LinkOnceAt(msgs: map<Id, Message>, parents: seq<Id>, child: Id, key: Id)
    requires key in msgs
    ensures key in MessageStore.LinkOnceAll(msgs, parents, child)
    ensures MessageStore.LinkOnceAll(msgs, parents, child)[key]
         == if key in parents then msgs[key].(children := MessageStore.AppendOnce(msgs[key].children, child)) else msgs[key]
  {
  }

  /** The ids in the table after `n` copies: the original ones and the first `n` fresh ones. */
  lemma {:induction false} DuplicatedKeys(store: map<Id, Message>, src: seq<Message>, session: Id, ids: seq<Id>, now: int, n: nat, key: Id)
    requires n <= |src| && n <= |ids|
    ensures key in Duplicated(store, src, session, ids, now, n) <==> key in store || exists j :: 0 <= j < n && ids[j] == key
  {
    if n > 0 {
      DuplicatedKeys(store, src, session, ids, now, n - 1, key);
      var before := Duplicated(store, src, session, ids, now, n - 1);
      var c := CopyOf(src[n - 1], session, ids[n - 1], IdMapping(src, ids, n - 1), now);
      var saved := before[c.id := c];
      assert Duplicated(store, src, session, ids, now, n) == MessageStore.LinkOnceAll(saved, c.parents, c.id);
      if key in saved {
        LinkOnceAt(saved, c.parents, c.id, key);
      }
      if key == ids[n - 1] {
        assert 0 <= n - 1 < n && ids[n - 1] == key;
      }
    }
  }

  /** With fresh ids, the id of copy `n` is not yet in the table when it is saved. */
  lemma NextIdFresh(store: map<Id, Message>, src: seq<Message>, session: Id, ids: seq<Id>, now: int, n: nat)
    requires n < |src| && n < |ids| && FreshIds(store, ids)
    ensures ids[n] !in Duplicated(store, src, session, ids, now, n)
  {
    DuplicatedKeys(store, src, session, ids, now, n, ids[n]);
  }

  /** One more copy keeps each stored message apart from its child list, which may grow by one append. */
  lemma StepAt(store: map<Id, Message>, src: seq<Message>, session: Id, ids: seq<Id>, now: int, n: nat, key: Id)
    requires n < |src| && n < |ids| && FreshIds(store, ids)
    requires key in Duplicated(store, src, session, ids, now, n)
    ensures key in Duplicated(store, src, session, ids, now, n + 1)
    ensures KeptMsg(Duplicated(store, src, session, ids, now, n)[key], Duplicated(store, src, session, ids, now, n + 1)[key])
  {
    var before := Duplicated(store, src, session, ids, now, n);
    var c := CopyOf(src[n], session, ids[n], IdMapping(src, ids, n), now);
    NextIdFresh(store, src, session, ids, now, n);
    var saved := before[c.id := c];
    assert saved[key] == before[key];
    LinkOnceAt(saved, c.parents, c.id, key);
  }

  /** Later copies keep each stored message apart from its child list, which only grows by appending. */
  lemma {:induction false} KeptAt(store: map<Id, Message>, src: seq<Message>, session: Id, ids: seq<Id>, now: int, k: nat, n: nat, key: Id)
    requires k <= n <= |src| && n <= |ids| && FreshIds(store, ids)
    requires key in Duplicated(store, src, session, ids, now, k)
    ensures key in Duplicated(store, src, session, ids, now, n)
    ensures KeptMsg(Duplicated(store, src, session, ids, now, k)[key], Duplicated(store, src, session, ids, now, n)[key])
    decreases n - k
  {
    if k < n {
      StepAt(store, src, session, ids, now, k, key);
      KeptAt(store, src, session, ids, now, k + 1, n, key);
      var a, b, c := Duplicated(store, src, session, ids, now, k), Duplicated(store, src, session, ids, now, k + 1),
                     Duplicated(store, src, session, ids, now, n);
      KeptMsgTransitive(a[key], b[key], c[key]);
    }
  }

  /**
   * Duplicating with fresh ids leaves every existing message as it was apart from its child
   * list, which only grows by appending.
   */
  lemma DuplicatedGrows(store: map<Id, Message>, src: seq<Message>, session: Id, ids: seq<Id>, now: int)
    requires |ids| == |src| && FreshIds(store, ids)
    ensures Grows(store, Duplicated(store, src, session, ids, now, |src|))
  {
    forall key | key in store
      ensures key in Duplicated(store, src, session, ids, now, |src|)
      ensures KeptMsg(store[key], Duplicated(store, src, session, ids, now, |src|)[key])
    {
      KeptAt(store, src, session, ids, now, 0, |src|, key);
    }
  }

  /**
   * Copy `k` is stored under `ids[k]`: the original's role, content, model, position and
   * participant, status success, in the new session, with the remapped parents.
   */
  lemma CopiesStored(store: map<Id, Message>, src: seq<Message>, session: Id, ids: seq<Id>, now: int, k: nat)
    requires |ids| == |src| && k < |src| && FreshIds(store, ids)
    ensures ids[k] in Duplicated(store, src, session, ids, now, |src|)
    ensures var m := Duplicated(store, src, session, ids, now, |src|)[ids[k]];
            m.(children := []) == CopyOf(src[k], session, ids[k], IdMapping(src, ids, k), now)
            && m.session == session && m.status == STATUS_SUCCESS
            && m.role == src[k].role && m.content == src[k].content && m.model == src[k].model
            && m.position == src[k].position && m.participant == src[k].participant
  {
    var before := Duplicated(store, src, session, ids, now, k);
    var c := CopyOf(src[k], session, ids[k], IdMapping(src, ids, k), now);
    NextIdFresh(store, src, session, ids, now, k);
    var saved := before[c.id := c];
    LinkOnceAt(saved, c.parents, c.id, c.id);
    assert Duplicated(store, src, session, ids, now, k + 1)[c.id].(children := []) == c;
    KeptAt(store, src, session, ids, now, k + 1, |src|, c.id);
  }

  /**
   * A parent of an original that was copied earlier is replaced by that copy; any other
   * parent id is kept as it is.
   */
  lemma ParentsRemapped(src: seq<Message>, session: Id, ids: seq<Id>, now: int, k: nat, i: nat)
    requires |ids| == |src| && k < |src| && i < |src[k].parents|
    requires forall a, b :: 0 <= a < b < |src| ==> src[a].id != src[b].id
    ensures var ps := CopyOf(src[k], session, ids[k], IdMapping(src, ids, k), now).parents;
            (forall j :: 0 <= j < k && src[j].id == src[k].parents[i] ==> ps[i] == ids[j])
            && ((forall j :: 0 <= j < k ==> src[j].id != src[k].parents[i]) ==> ps[i] == src[k].parents[i])
  {
    IdMappingKeys(src, ids, k, src[k].parents[i]);
    forall j | 0 <= j < k && src[j].id == src[k].parents[i]
      ensures IdMapping(src, ids, k)[src[k].parents[i]] == ids[j]
    {
      IdMappingAt(src, ids, k, j);
    }
  }

  /**
   * Each copy's id ends up in the child list of each of its parents that existed when the
   * copy was saved (an earlier copy, or any stored message, in the new session or not).
   */
  lemma CopyLinked(store: map<Id, Message>, src: seq<Message>, session: Id, ids: seq<Id>, now: int, k: nat, p: Id)
    requires |ids| == |src| && k < |src| && FreshIds(store, ids)
    requires p in CopyOf(src[k], session, ids[k], IdMapping(src, ids, k), now).parents
    requires p in Duplicated(store, src, session, ids, now, k)
    ensures p in Duplicated(store, src, session, ids, now, |src|)
    ensures ids[k] in Duplicated(store, src, session, ids, now, |src|)[p].children
  {
    var before := Duplicated(store, src, session, ids, now, k);
    var c := CopyOf(src[k], session, ids[k], IdMapping(src, ids, k), now);
    var saved := before[c.id := c];
    LinkOnceAt(saved, c.parents, c.id, p);
    assert ids[k] in Duplicated(store, src, session, ids, now, k + 1)[p].children;
    KeptAt(store, src, session, ids, now, k + 1, |src|, p);
  }

  /** Child lists without repeats stay without repeats: a copy is listed at most once under each parent. */
  lemma {:induction false} DuplicatedDistinctChildren(store: map<Id, Message>, src: seq<Message>, session: Id, ids: seq<Id>, now: int, n: nat)
    requires n <= |src| && n <= |ids|
    requires forall k :: k in store ==> Ordering.Distinct(store[k].children)
    ensures forall k :: k in Duplicated(store, src, session, ids, now, n) ==>
              Ordering.Distinct(Duplicated(store, src, session, ids, now, n)[k].children)
  {
    if n > 0 {
      DuplicatedDistinctChildren(store, src, session, ids, now, n - 1);
      var before := Duplicated(store, src, session, ids, now, n - 1);
      var c := CopyOf(src[n - 1], session, ids[n - 1], IdMapping(src, ids, n - 1), now);
      var saved := before[c.id := c];
      assert forall k :: k in saved ==> Ordering.Distinct(saved[k].children);
      var after := MessageStore.LinkOnceAll(saved, c.parents, c.id);
      forall k | k in after ensures Ordering.Distinct(after[k].children) {
        LinkOnceAt(saved, c.parents, c.id, k);
      }
    }
  }

  // ---------------------------------------------------------------- token usage

  /** The estimated tokens of the messages whose role is (`user`) or is not (`!user`) "user". */
  function Tokens(ms: seq<Message>, user: bool): nat
  {
    if ms == [] then 0
    else
      var last := ms[|ms| - 1];
      Tokens(ms[..|ms| - 1], user) + (if (last.role == ROLE_USER) == user then ModelCatalog.CountTokens(last.content) else 0)
  }

  /** The estimated tokens of all the messages. */
  function AllTokens(ms: seq<Message>): nat
  {
    if ms == [] then 0 else AllTokens(ms[..|ms| - 1]) + ModelCatalog.CountTokens(ms[|ms| - 1].content)
  }

  /** Every message counts once, on exactly one side: input plus output is the total. */
  lemma {:induction false} TokensSplit(ms: seq<Message>)
    ensures Tokens(ms, true) + Tokens(ms, false) == AllTokens(ms)
  {
    if ms != [] {
      TokensSplit(ms[..|ms| - 1]);
    }
  }

  /** Only user messages feed the input total: without them it is 0 and the output is everything. */
  lemma {:induction false} NoUserNoInput(ms: seq<Message>)
    requires forall i :: 0 <= i < |ms| ==> ms[i].role != ROLE_USER
    ensures Tokens(ms, true) == 0 && Tokens(ms, false) == AllTokens(ms)
  {
    if ms != [] {
      NoUserNoInput(ms[..|ms| - 1]);
    }
  }

  /**
   * The token loop of `get_session_statistics`: each message's estimate goes to the input
   * total for a user message and to the output total otherwise (cost estimation left out).
   */
  method TokenUsage(ms: seq<Message>) returns (input: nat, output: nat)
    ensures input == Tokens(ms, true) && output == Tokens(ms, false)
    ensures input + output == AllTokens(ms)
  {
    input, output := 0, 0;
    for i := 0 to |ms|
      invariant input == Tokens(ms[..i], true) && output == Tokens(ms[..i], false)
    {
      assert ms[..i + 1][..i] == ms[..i];
      var tokens := ModelCatalog.CountTokens(ms[i].content);
      if ms[i].role == ROLE_USER {
        input := input + tokens;
      } else {
        output := output + tokens;
      }
    }
    assert ms[..|ms|] == ms;
    TokensSplit(ms);
  }
}
