/**
 * `MessageAnalysis`: the message analyses of the arena and the periodic message tasks.
 * Word-overlap similarity and language detection feed the conversation-quality counters;
 * the tasks repair orphaned parent references, classify recent failures, pair user messages
 * with the replies that answer them and look for repeated user messages in a session.
 * Database queries become sequences handed to the operations; times are seconds.
 */
module MessageAnalysis {
  import opened Wrappers
  import opened Entities
  import Text
  import Ordering

  // ------------------------------------------------------------ similarity

  /** The lower-cased word set of a text, `set(s.lower().split())`. */
  function Tokens(s: string): set<string>
  {
    Text.WordSet(Text.Lower(s))
  }

  /** A subset as large as its superset is the superset. */
  lemma SubsetSameCard<T>(a: set<T>, b: set<T>)
    requires a <= b && |a| == |b|
    ensures a == b
  {
    assert b == a + (b - a);
  }

  /** The size facts the Jaccard ratio needs. */
  lemma JaccardSizes(w1: set<string>, w2: set<string>)
    requires w1 != {}
    ensures 0 < |w1 + w2| && |w1 * w2| <= |w1 + w2|
    ensures |w1 * w2| == |w1 + w2| <==> w1 == w2
  {
    Ordering.SubsetCard(w1 * w2, w1 + w2);
    Ordering.SubsetCard(w1, w1 + w2);
    if |w1 * w2| == |w1 + w2| {
      SubsetSameCard(w1 * w2, w1 + w2);
      assert w1 <= w2 && w2 <= w1;
    }
    if w1 == w2 {
      assert w1 * w2 == w1 + w2;
    }
  }

  /** A ratio of a count to a larger positive count lies in [0, 1] and is 1 only for equal counts. */
  lemma RatioBounds(n: nat, d: nat)
    requires 0 < d && n <= d
    ensures 0.0 <= (n as real) / (d as real) <= 1.0
    ensures (n as real) / (d as real) == 1.0 <==> n == d
  {
    QuotientBounds(n as real, d as real);
  }

  /** The same bounds over the reals: a quotient of a non-negative number by a larger one. */
  lemma QuotientBounds(x: real, y: real)
    requires 0.0 < y && 0.0 <= x <= y
    ensures 0.0 <= x / y <= 1.0
    ensures x / y == 1.0 <==> x == y
  {
    var q := x / y;
    assert q * y == x;
  }

  /**
   * `calculate_message_similarity`: the number of shared words over the number of distinct
   * words of both texts, ignoring case, and 0 when either text has no words.
   */
  function Similarity(a: string, b: string): (r: real)
    ensures 0.0 <= r <= 1.0
    ensures Tokens(a) == {} || Tokens(b) == {} ==> r == 0.0
    ensures r == 1.0 <==> Tokens(a) != {} && Tokens(a) == Tokens(b)
  {
    var w1, w2 := Tokens(a), Tokens(b);
    if w1 == {} || w2 == {} then 0.0
    else
      JaccardSizes(w1, w2);
      RatioBounds(|w1 * w2|, |w1 + w2|);
      (|w1 * w2| as real) / (|w1 + w2| as real)
  }

  /** Similarity does not depend on the order of its arguments. */
  lemma SimilaritySymmetric(a: string, b: string)
    ensures Similarity(a, b) == Similarity(b, a)
  {
    assert Tokens(a) * Tokens(b) == Tokens(b) * Tokens(a);
    assert Tokens(a) + Tokens(b) == Tokens(b) + Tokens(a);
  }

  /** Similarity ignores letter case. */
  lemma SimilarityIgnoresCase(a: string, b: string)
    ensures Similarity(Text.Lower(a), b) == Similarity(a, b)
    ensures Similarity(a, Text.Lower(b)) == Similarity(a, b)
  {
    Text.LowerIdempotent(a);
    Text.LowerIdempotent(b);
  }

  // ------------------------------------------------------------ language

  const CHINESE: string := "chinese"
  const ARABIC: string := "arabic"
  const JAPANESE: string := "japanese"
  const KOREAN: string := "korean"
  const ENGLISH: string := "english"

  /** Some character of `s` lies in the range [lo, hi]. */
  predicate HasCharIn(s: string, lo: char, hi: char)
  {
    exists i :: 0 <= i < |s| && lo <= s[i] <= hi
  }

  predicate HasJapanese(s: string)
  {
    HasCharIn(s, '\U{3040}', '\U{309F}') || HasCharIn(s, '\U{30A0}', '\U{30FF}')
  }

  /**
   * `detect_language`: the first script found, checked in the order CJK ideographs, Arabic,
   * kana, Hangul; English when the text has none of them.
   */
  function DetectLanguage(content: string): (lang: string)
    ensures lang in {CHINESE, ARABIC, JAPANESE, KOREAN, ENGLISH}
    ensures HasCharIn(content, '\U{4E00}', '\U{9FFF}') ==> lang == CHINESE
    ensures lang == ENGLISH <==>
      !HasCharIn(content, '\U{4E00}', '\U{9FFF}') && !HasCharIn(content, '\U{0600}', '\U{06FF}')
      && !HasJapanese(content) && !HasCharIn(content, '\U{AC00}', '\U{D7AF}')
  {
    if HasCharIn(content, '\U{4E00}', '\U{9FFF}') then CHINESE
    else if HasCharIn(content, '\U{0600}', '\U{06FF}') then ARABIC
    else if HasJapanese(content) then JAPANESE
    else if HasCharIn(content, '\U{AC00}', '\U{D7AF}') then KOREAN
    else ENGLISH
  }

  /** A text written only in ASCII is taken to be English. */
  lemma AsciiIsEnglish(content: string)
    requires forall i :: 0 <= i < |content| ==> content[i] < '\U{80}'
    ensures DetectLanguage(content) == ENGLISH
  {
    assert !HasCharIn(content, '\U{4E00}', '\U{9FFF}');
    assert !HasCharIn(content, '\U{0600}', '\U{06FF}');
    assert !HasJapanese(content);
    assert !HasCharIn(content, '\U{AC00}', '\U{D7AF}');
  }

  // ------------------------------------------------------------ conversation quality

  /** The counters of `analyze_conversation_quality`; code blocks are not counted here. */
  datatype Quality = Quality(
    total: nat,
    avgLength: real,
    depth: nat,
    questions: nat,
    languages: set<string>,
    detailed: nat,
    short: nat,
    examples: nat,
    references: nat)

  predicate Asks(m: Message) { Text.Contains(m.content, "?") }

  predicate IsAssistant(m: Message) { m.role == ROLE_ASSISTANT }

  predicate IsUser(m: Message) { m.role == ROLE_USER }

  /** An assistant reply longer than 500 characters. */
  predicate IsDetailed(m: Message) { m.role == ROLE_ASSISTANT && |m.content| > 500 }

  /** An assistant reply shorter than 50 characters. */
  predicate IsShort(m: Message) { m.role == ROLE_ASSISTANT && |m.content| < 50 }

  predicate GivesExample(m: Message)
  {
    m.role == ROLE_ASSISTANT
    && (Text.Contains(Text.Lower(m.content), "example") || Text.Contains(Text.Lower(m.content), "for instance"))
  }

  predicate GivesReference(m: Message)
  {
    m.role == ROLE_ASSISTANT
    && (Text.Contains(m.content, "http") || Text.Contains(Text.Lower(m.content), "source:"))
  }

  function ContentLength(m: Message): int { |m.content| }

  /** The number of user messages at the end of `s`. */
  function TrailingUsers(s: seq<Message>): (n: nat)
    ensures n <= |s|
  {
    if s == [] || s[|s| - 1].role != ROLE_USER then 0 else TrailingUsers(s[..|s| - 1]) + 1
  }

  /** The longest stretch of consecutive user messages in `s`. */
  function LongestUserRun(s: seq<Message>): (n: nat)
    ensures TrailingUsers(s) <= n <= |s|
  {
    if s == [] then 0
    else
      var before := LongestUserRun(s[..|s| - 1]);
      if before < TrailingUsers(s) then TrailingUsers(s) else before
  }

  /** The languages detected in the messages of `s`. */
  function Languages(s: seq<Message>): (langs: set<string>)
    ensures forall m :: m in s ==> DetectLanguage(m.content) in langs
  {
    if s == [] then {}
    else
      assert s == s[..|s| - 1] + [s[|s| - 1]];
      Languages(s[..|s| - 1]) + {DetectLanguage(s[|s| - 1].content)}
  }

  ghost predicate AllUsers(s: seq<Message>)
  {
    forall k :: 0 <= k < |s| ==> s[k].role == ROLE_USER
  }

  /** The `n` messages of `s` from index `k` on are all user messages. */
  ghost predicate UserRunAt(s: seq<Message>, k: int, n: nat)
  {
    0 <= k <= |s| - n && AllUsers(s[k..k + n])
  }

  /** The trailing run is all users, and no longer all-user suffix exists. */
  lemma TrailingRun(s: seq<Message>, i: nat)
    requires i <= |s|
    ensures AllUsers(s[|s| - TrailingUsers(s)..])
    ensures AllUsers(s[i..]) ==> |s| - i <= TrailingUsers(s)
  {
    TrailingAllUsers(s);
    if AllUsers(s[i..]) {
      TrailingMaximal(s, i);
    }
  }

  lemma {:induction false} TrailingAllUsers(s: seq<Message>)
    ensures AllUsers(s[|s| - TrailingUsers(s)..])
  {
    if s != [] && s[|s| - 1].role == ROLE_USER {
      var init := s[..|s| - 1];
      TrailingAllUsers(init);
      var t := TrailingUsers(init);
      assert TrailingUsers(s) == t + 1;
      var run := init[|init| - t..];
      var ext := run + [s[|s| - 1]];
      assert s[|s| - (t + 1)..] == ext;
      forall k | 0 <= k < |ext| ensures ext[k].role == ROLE_USER {
        if k < |run| {
          assert ext[k] == run[k];
        }
      }
    } else {
      assert s[|s|..] == [];
    }
  }

  lemma {:induction false} TrailingMaximal(s: seq<Message>, i: nat)
    requires i <= |s| && AllUsers(s[i..])
    ensures |s| - i <= TrailingUsers(s)
  {
    if i < |s| {
      assert s[i..][|s| - 1 - i] == s[|s| - 1];
      var init := s[..|s| - 1];
      assert init[i..] == s[i..|s| - 1];
      assert forall k :: 0 <= k < |init[i..]| ==> init[i..][k] == s[i..][k];
      TrailingMaximal(init, i);
    }
  }

  /** No all-user stretch is longer than the depth. */
  lemma {:induction false} RunsBounded(s: seq<Message>, i: nat, j: nat)
    requires i <= j <= |s|
    ensures AllUsers(s[i..j]) ==> j - i <= LongestUserRun(s)
  {
    if s != [] {
      var init := s[..|s| - 1];
      if j < |s| {
        assert s[i..j] == init[i..j];
        RunsBounded(init, i, j);
      } else {
        TrailingRun(s, i);
        assert s[i..j] == s[i..];
      }
    }
  }

  /** Some all-user stretch is as long as the depth. */
  lemma {:induction false} RunAttained(s: seq<Message>)
    ensures exists k :: UserRunAt(s, k, LongestUserRun(s))
  {
    if s == [] {
      assert LongestUserRun(s) == 0 && s[0..0] == [];
      assert UserRunAt(s, 0, 0);
    } else {
      var init := s[..|s| - 1];
      var t := TrailingUsers(s);
      if LongestUserRun(s) == t {
        TrailingRun(s, 0);
        assert s[|s| - t..|s| - t + t] == s[|s| - t..];
        assert UserRunAt(s, |s| - t, t);
      } else {
        var n := LongestUserRun(init);
        assert LongestUserRun(s) == n;
        RunAttained(init);
        var k :| UserRunAt(init, k, n);
        RunInPrefix(s, k, n);
      }
    }
  }

  /** A stretch of the prefix without the last message is a stretch of `s`. */
  lemma RunInPrefix(s: seq<Message>, k: int, n: nat)
    requires s != [] && UserRunAt(s[..|s| - 1], k, n)
    ensures UserRunAt(s, k, n)
  {
    assert s[k..k + n] == s[..|s| - 1][k..k + n];
  }

  /** Counting one more message: the step of the quality loop. */
  lemma QualityStep(messages: seq<Message>, i: nat)
    requires i < |messages|
    ensures var m, pre, next := messages[i], messages[..i], messages[..i + 1];
      && Ordering.SumOf(next, ContentLength) == Ordering.SumOf(pre, ContentLength) + |m.content|
      && TrailingUsers(next) == (if m.role == ROLE_USER then TrailingUsers(pre) + 1 else 0)
      && LongestUserRun(next) == (if LongestUserRun(pre) < TrailingUsers(next) then TrailingUsers(next) else LongestUserRun(pre))
      && Languages(next) == Languages(pre) + {DetectLanguage(m.content)}
      && Ordering.CountIf(next, Asks) == Ordering.CountIf(pre, Asks) + (if Asks(m) then 1 else 0)
      && Ordering.CountIf(next, IsDetailed) == Ordering.CountIf(pre, IsDetailed) + (if IsDetailed(m) then 1 else 0)
      && Ordering.CountIf(next, IsShort) == Ordering.CountIf(pre, IsShort) + (if IsShort(m) then 1 else 0)
      && Ordering.CountIf(next, GivesExample) == Ordering.CountIf(pre, GivesExample) + (if GivesExample(m) then 1 else 0)
      && Ordering.CountIf(next, GivesReference) == Ordering.CountIf(pre, GivesReference) + (if GivesReference(m) then 1 else 0)
  {
    assert messages[..i + 1][..i] == messages[..i];
  }

  /** The quality counters after the first `i` messages. */
  ghost predicate QualityScanned(messages: seq<Message>, i: nat, totalLength: int, currentDepth: int, maxDepth: int,
                                 languages: set<string>, questions: int, detailed: int, short: int, examples: int, references: int)
  {
    i <= |messages|
    && var pre := messages[..i];
    && totalLength == Ordering.SumOf(pre, ContentLength)
    && currentDepth == TrailingUsers(pre)
    && maxDepth == LongestUserRun(pre)
    && languages == Languages(pre)
    && questions == Ordering.CountIf(pre, Asks)
    && detailed == Ordering.CountIf(pre, IsDetailed)
    && short == Ordering.CountIf(pre, IsShort)
    && examples == Ordering.CountIf(pre, GivesExample)
    && references == Ordering.CountIf(pre, GivesReference)
  }

  /** The quality counters after one more message. */
  lemma QualityAdvance(messages: seq<Message>, i: nat, totalLength: int, currentDepth: int, maxDepth: int,
                       languages: set<string>, questions: int, detailed: int, short: int, examples: int, references: int)
    requires i < |messages|
    requires QualityScanned(messages, i, totalLength, currentDepth, maxDepth, languages,
                            questions, detailed, short, examples, references)
    ensures var m := messages[i];
      var depth := if m.role == ROLE_USER then currentDepth + 1 else 0;
      QualityScanned(messages, i + 1, totalLength + |m.content|, depth, if maxDepth < depth then depth else maxDepth,
                     languages + {DetectLanguage(m.content)},
                     questions + (if Asks(m) then 1 else 0), detailed + (if IsDetailed(m) then 1 else 0),
                     short + (if IsShort(m) then 1 else 0), examples + (if GivesExample(m) then 1 else 0),
                     references + (if GivesReference(m) then 1 else 0))
  {
    QualityStep(messages, i);
  }

  /** `analyze_conversation_quality` without the code-block count. */
  method AnalyzeConversationQuality(messages: seq<Message>) returns (q: Quality)
    ensures q.total == |messages|
    ensures q.avgLength ==
      if messages == [] then 0.0
      else (Ordering.SumOf(messages, ContentLength) as real) / (|messages| as real)
    ensures q.depth == LongestUserRun(messages)
    ensures q.questions == Ordering.CountIf(messages, Asks)
    ensures q.languages == Languages(messages)
    ensures q.detailed == Ordering.CountIf(messages, IsDetailed)
    ensures q.short == Ordering.CountIf(messages, IsShort)
    ensures q.examples == Ordering.CountIf(messages, GivesExample)
    ensures q.references == Ordering.CountIf(messages, GivesReference)
  {
    var totalLength := 0;
    var maxDepth := 0;
    var currentDepth := 0;
    var questions, detailed, short, examples, references := 0, 0, 0, 0, 0;
    var languages: set<string> := {};
    for i := 0 to |messages|
      invariant QualityScanned(messages, i, totalLength, currentDepth, maxDepth, languages,
                               questions, detailed, short, examples, references)
    {
      var msg := messages[i];
      QualityAdvance(messages, i, totalLength, currentDepth, maxDepth, languages, questions, detailed, short, examples, references);
      totalLength := totalLength + |msg.content|;
      if Text.Contains(msg.content, "?") {
        questions := questions + 1;
      }
      languages := languages + {DetectLanguage(msg.content)};
      if msg.role == ROLE_ASSISTANT {
        if |msg.content| > 500 {
          detailed := detailed + 1;
        } else if |msg.content| < 50 {
          short := short + 1;
        }
        var lower := Text.Lower(msg.content);
        if Text.Contains(lower, "example") || Text.Contains(lower, "for instance") {
          examples := examples + 1;
        }
        if Text.Contains(msg.content, "http") || Text.Contains(lower, "source:") {
          references := references + 1;
        }
      }
      if msg.role == ROLE_USER {
        currentDepth := currentDepth + 1;
        if maxDepth < currentDepth {
          maxDepth := currentDepth;
        }
      } else {
        currentDepth := 0;
      }
    }
    assert messages[..|messages|] == messages;
    var avg := if messages == [] then 0.0 else (totalLength as real) / (|messages| as real);
    q := Quality(|messages|, avg, maxDepth, questions, languages, detailed, short, examples, references);
  }

  /** Detailed and short replies are disjoint kinds of assistant reply. */
  lemma QualityIndicators(messages: seq<Message>)
    ensures Ordering.CountIf(messages, IsDetailed) + Ordering.CountIf(messages, IsShort)
      <= Ordering.CountIf(messages, IsAssistant)
    ensures Ordering.CountIf(messages, GivesExample) <= Ordering.CountIf(messages, IsAssistant)
    ensures Ordering.CountIf(messages, GivesReference) <= Ordering.CountIf(messages, IsAssistant)
  {
    Ordering.CountIfSplit(messages, IsDetailed, IsShort, IsSizedReply);
    Ordering.CountIfMono(messages, IsSizedReply, IsAssistant);
    Ordering.CountIfMono(messages, GivesExample, IsAssistant);
    Ordering.CountIfMono(messages, GivesReference, IsAssistant);
  }

  predicate IsSizedReply(m: Message) { IsDetailed(m) || IsShort(m) }

  // ------------------------------------------------------------ orphaned parent references

  /** The ids of the stored messages. */
  function RowIds(rows: seq<Message>): set<Id>
  {
    set m | m in rows :: m.id
  }

  function InTable(ids: set<Id>): Id -> bool { (x: Id) => x in ids }

  function Absent(ids: set<Id>): Id -> bool { (x: Id) => x !in ids }

  /** Every reference either resolves or is missing. */
  lemma {:induction false} ResolvedPlusMissing(ids: set<Id>, parents: seq<Id>)
    ensures Ordering.CountIf(parents, InTable(ids)) + Ordering.CountIf(parents, Absent(ids)) == |parents|
  {
    if parents != [] {
      ResolvedPlusMissing(ids, parents[..|parents| - 1]);
    }
  }

  /** The inner loop of `cleanup_orphaned_messages`: the resolving ids in order, and the count of the others. */
  method ValidParents(ids: set<Id>, parents: seq<Id>) returns (valid: seq<Id>, orphaned: nat)
    ensures valid == Ordering.Filter(parents, InTable(ids))
    ensures orphaned == Ordering.CountIf(parents, Absent(ids))
    ensures |valid| + orphaned == |parents|
  {
    valid, orphaned := [], 0;
    for k := 0 to |parents|
      invariant ParentsScanned(ids, parents, k, valid, orphaned)
    {
      ValidParentsStep(ids, parents, k, valid, orphaned);
      if parents[k] in ids {
        valid := valid + [parents[k]];
      } else {
        orphaned := orphaned + 1;
      }
    }
    ValidParentsDone(ids, parents, valid, orphaned);
  }

  /** The first `k` parent ids have been checked: `valid` keeps the resolving ones and `orphaned` counts the rest. */
  ghost predicate ParentsScanned(ids: set<Id>, parents: seq<Id>, k: nat, valid: seq<Id>, orphaned: nat)
  {
    k <= |parents|
    && valid == Ordering.Filter(parents[..k], InTable(ids))
    && orphaned == Ordering.CountIf(parents[..k], Absent(ids))
  }

  lemma ValidParentsDone(ids: set<Id>, parents: seq<Id>, valid: seq<Id>, orphaned: nat)
    requires ParentsScanned(ids, parents, |parents|, valid, orphaned)
    ensures valid == Ordering.Filter(parents, InTable(ids))
    ensures orphaned == Ordering.CountIf(parents, Absent(ids))
    ensures |valid| + orphaned == |parents|
  {
    assert parents[..|parents|] == parents;
    ResolvedPlusMissing(ids, parents);
  }

  /** Checking one more parent id: the step of the inner loop. */
  lemma ValidParentsStep(ids: set<Id>, parents: seq<Id>, k: nat, valid: seq<Id>, orphaned: nat)
    requires k < |parents| && ParentsScanned(ids, parents, k, valid, orphaned)
    ensures parents[k] in ids ==> ParentsScanned(ids, parents, k + 1, valid + [parents[k]], orphaned)
    ensures parents[k] !in ids ==> ParentsScanned(ids, parents, k + 1, valid, orphaned + 1)
  {
    Ordering.FilterPrefix(parents, k, InTable(ids));
    Ordering.CountIfPrefix(parents, k, Absent(ids));
  }


  /** A message with its dangling parent references dropped. */
  function Repaired(ids: set<Id>, m: Message): Message
  {
    m.(parents := Ordering.Filter(m.parents, InTable(ids)))
  }

  function RepairAll(ids: set<Id>, rows: seq<Message>): (r: seq<Message>)
    ensures |r| == |rows|
    ensures forall k :: 0 <= k < |rows| ==> r[k] == Repaired(ids, rows[k])
  {
    seq(|rows|, k requires 0 <= k < |rows| => Repaired(ids, rows[k]))
  }

  /** The number of parent references of `m` that do not resolve. */
  function Orphans(ids: set<Id>, m: Message): nat
  {
    Ordering.CountIf(m.parents, Absent(ids))
  }

  function OrphanCount(ids: set<Id>): Message -> int
  {
    (m: Message) => Orphans(ids, m)
  }

  function HasOrphans(ids: set<Id>): Message -> bool
  {
    (m: Message) => Orphans(ids, m) > 0
  }

  /** A message whose references all resolve is left as it is. */
  lemma RepairKeepsSound(ids: set<Id>, m: Message)
    requires Orphans(ids, m) == 0
    ensures Repaired(ids, m) == m
  {
    ResolvedPlusMissing(ids, m.parents);
    forall x | x in m.parents ensures InTable(ids)(x) {
      if x !in ids {
        var k :| 0 <= k < |m.parents| && m.parents[k] == x;
        Ordering.CountIfRemove(m.parents, k, Absent(ids));
      }
    }
    Ordering.FilterKeepsAll(m.parents, InTable(ids));
  }

  /** Visiting one more message: the step of the outer loop. */
  lemma CleanupStep(ids: set<Id>, rows: seq<Message>, i: nat)
    requires i < |rows|
    ensures Ordering.SumOf(rows[..i + 1], OrphanCount(ids)) == Ordering.SumOf(rows[..i], OrphanCount(ids)) + Orphans(ids, rows[i])
    ensures Ordering.CountIf(rows[..i + 1], HasOrphans(ids))
      == Ordering.CountIf(rows[..i], HasOrphans(ids)) + (if Orphans(ids, rows[i]) > 0 then 1 else 0)
  {
    assert rows[..i + 1] == rows[..i] + [rows[i]];
    Ordering.SumOfSnoc(rows[..i], rows[i], OrphanCount(ids));
    Ordering.CountIfPrefix(rows, i, HasOrphans(ids));
  }

  /**
   * `cleanup_orphaned_messages`: every message keeps exactly its resolving parent ids, in
   * order; the count is the number of dropped references; a message is rewritten only when
   * it lost a reference.
   */
  method CleanupOrphanedMessages(rows: seq<Message>) returns (cleaned: seq<Message>, orphanedCount: int, saves: nat)
    ensures cleaned == RepairAll(RowIds(rows), rows)
    ensures forall k :: 0 <= k < |rows| && Orphans(RowIds(rows), rows[k]) == 0 ==> cleaned[k] == rows[k]
    ensures orphanedCount == Ordering.SumOf(rows, OrphanCount(RowIds(rows)))
    ensures saves == Ordering.CountIf(rows, HasOrphans(RowIds(rows)))
  {
    var ids := RowIds(rows);
    cleaned, orphanedCount, saves := rows, 0, 0;
    for i := 0 to |rows|
      invariant |cleaned| == |rows|
      invariant forall k :: 0 <= k < i ==> cleaned[k] == Repaired(ids, rows[k])
      invariant forall k :: i <= k < |rows| ==> cleaned[k] == rows[k]
      invariant orphanedCount == Ordering.SumOf(rows[..i], OrphanCount(ids))
      invariant saves == Ordering.CountIf(rows[..i], HasOrphans(ids))
    {
      var message := rows[i];
      CleanupStep(ids, rows, i);
      if message.parents != [] {
        var valid, orphaned := ValidParents(ids, message.parents);
        orphanedCount := orphanedCount + orphaned;
        if |valid| != |message.parents| {
          cleaned := cleaned[i := message.(parents := valid)];
          saves := saves + 1;
        } else {
          RepairKeepsSound(ids, message);
        }
      } else {
        RepairKeepsSound(ids, message);
      }
    }
    assert rows[..|rows|] == rows;
    SoundRowsUnchanged(ids, rows);
  }

  /** Repairing leaves every message whose references all resolve as it is. */
  lemma SoundRowsUnchanged(ids: set<Id>, rows: seq<Message>)
    ensures forall k :: 0 <= k < |rows| && Orphans(ids, rows[k]) == 0 ==> RepairAll(ids, rows)[k] == rows[k]
  {
    forall k | 0 <= k < |rows| && Orphans(ids, rows[k]) == 0 ensures RepairAll(ids, rows)[k] == rows[k] {
      RepairKeepsSound(ids, rows[k]);
    }
  }

  /** Repairing keeps every message id. */
  lemma RepairKeepsIds(ids: set<Id>, rows: seq<Message>)
    ensures RowIds(RepairAll(ids, rows)) == RowIds(rows)
  {
    var r := RepairAll(ids, rows);
    forall x | x in RowIds(rows) ensures x in RowIds(r) {
      var k :| 0 <= k < |rows| && rows[k].id == x;
      assert r[k] in r;
    }
    forall x | x in RowIds(r) ensures x in RowIds(rows) {
      var k :| 0 <= k < |r| && r[k].id == x;
      assert rows[k] in rows;
    }
  }

  /** A repaired message has no dangling reference left. */
  lemma RepairedIsSound(ids: set<Id>, m: Message)
    ensures Orphans(ids, Repaired(ids, m)) == 0
  {
    Ordering.CountIfNone(Repaired(ids, m).parents, Absent(ids));
  }

  /** After one cleanup a second one finds nothing to drop and changes nothing. */
  lemma CleanupIdempotent(rows: seq<Message>)
    ensures var ids := RowIds(rows);
      RowIds(RepairAll(ids, rows)) == ids
      && Ordering.SumOf(RepairAll(ids, rows), OrphanCount(ids)) == 0
      && Ordering.CountIf(RepairAll(ids, rows), HasOrphans(ids)) == 0
      && RepairAll(ids, RepairAll(ids, rows)) == RepairAll(ids, rows)
  {
    var ids := RowIds(rows);
    var r := RepairAll(ids, rows);
    RepairKeepsIds(ids, rows);
    forall m | m in r ensures OrphanCount(ids)(m) == 0 && !HasOrphans(ids)(m) {
      var k :| 0 <= k < |r| && r[k] == m;
      RepairedIsSound(ids, rows[k]);
    }
    Ordering.SumOfBounds(r, OrphanCount(ids), 0, 0);
    Ordering.CountIfNone(r, HasOrphans(ids));
    forall k | 0 <= k < |r| ensures Orphans(ids, r[k]) == 0 {
      RepairedIsSound(ids, rows[k]);
    }
    SoundRowsUnchanged(ids, r);
  }

  // ------------------------------------------------------------ failure classification

  const TIMEOUT: string := "timeout"
  const RATE_LIMIT: string := "rate_limit"
  const INVALID_REQUEST: string := "invalid_request"
  const MODEL_ERROR: string := "model_error"
  const UNKNOWN: string := "unknown"

  const FAILURE_CATEGORIES: set<string> := {TIMEOUT, RATE_LIMIT, INVALID_REQUEST, MODEL_ERROR, UNKNOWN}

  /**
   * The category of a failure reason: the first of timeout, rate limit (or 429), invalid
   * request (or 400), model error (or 500) that the reason mentions, otherwise unknown.
   * Words are matched ignoring case, status codes as written.
   */
  function Category(reason: string): (c: string)
    ensures c in FAILURE_CATEGORIES
    ensures Text.Contains(Text.Lower(reason), "timeout") ==> c == TIMEOUT
    ensures c == UNKNOWN ==> !Text.Contains(reason, "429") && !Text.Contains(reason, "400") && !Text.Contains(reason, "500")
    ensures c == MODEL_ERROR ==> !Text.Contains(reason, "429") && !Text.Contains(reason, "400")
  {
    var lower := Text.Lower(reason);
    if Text.Contains(lower, "timeout") then TIMEOUT
    else if Text.Contains(lower, "rate limit") || Text.Contains(reason, "429") then RATE_LIMIT
    else if Text.Contains(lower, "invalid") || Text.Contains(reason, "400") then INVALID_REQUEST
    else if Text.Contains(lower, "model") || Text.Contains(reason, "500") then MODEL_ERROR
    else UNKNOWN
  }

  /** The failure reason of a message, the empty text when it has none. */
  function ReasonOf(m: Message): string { m.failureReason.GetOr("") }

  /** The query of `analyze_failed_messages`: failed messages created within the last day. */
  function RecentFailure(now: int): Message -> bool
  {
    (m: Message) => m.status == STATUS_FAILED && m.createdAt >= now - SECONDS_PER_DAY
  }

  /** The number of messages of `ms` whose reason falls in category `c`. */
  function CountCategory(ms: seq<Message>, c: string): (n: nat)
    ensures n <= |ms|
  {
    if ms == [] then 0
    else CountCategory(ms[..|ms| - 1], c) + (if Category(ReasonOf(ms[|ms| - 1])) == c then 1 else 0)
  }

  /** Every message falls in exactly one category. */
  lemma {:induction false} CategoriesPartition(ms: seq<Message>)
    ensures CountCategory(ms, TIMEOUT) + CountCategory(ms, RATE_LIMIT) + CountCategory(ms, INVALID_REQUEST)
      + CountCategory(ms, MODEL_ERROR) + CountCategory(ms, UNKNOWN) == |ms|
  {
    if ms != [] {
      CategoriesPartition(ms[..|ms| - 1]);
    }
  }

  /** Classifying one more message raises its own category's count and no other. */
  lemma CountCategoryStep(ms: seq<Message>, i: nat, category: string)
    requires i < |ms| && category == Category(ReasonOf(ms[i]))
    ensures CountCategory(ms[..i + 1], category) == CountCategory(ms[..i], category) + 1
    ensures forall c :: c != category ==> CountCategory(ms[..i + 1], c) == CountCategory(ms[..i], c)
  {
    assert ms[..i + 1][..i] == ms[..i];
  }

  /** `analyze_failed_messages`: the per-category counts of the failures of the last day. */
  method AnalyzeFailedMessages(messages: seq<Message>, now: int) returns (counts: map<string, nat>)
    ensures counts.Keys == FAILURE_CATEGORIES
    ensures forall c :: c in FAILURE_CATEGORIES ==>
      counts[c] == CountCategory(Ordering.Filter(messages, RecentFailure(now)), c)
    ensures counts[TIMEOUT] + counts[RATE_LIMIT] + counts[INVALID_REQUEST] + counts[MODEL_ERROR] + counts[UNKNOWN]
      == Ordering.CountIf(messages, RecentFailure(now))
  {
    var failed := Ordering.Filter(messages, RecentFailure(now));
    counts := map[TIMEOUT := 0, RATE_LIMIT := 0, INVALID_REQUEST := 0, MODEL_ERROR := 0, UNKNOWN := 0];
    assert failed[..0] == [];
    for i := 0 to |failed|
      invariant Tallied(failed, i, counts)
    {
      var category := Category(ReasonOf(failed[i]));
      TallyStep(failed, i, category, counts);
      counts := counts[category := counts[category] + 1];
    }
    assert failed[..|failed|] == failed;
    CategoriesPartition(failed);
  }

  /** `counts` holds the category counts of the first `i` failures. */
  ghost predicate Tallied(failed: seq<Message>, i: nat, counts: map<string, nat>)
  {
    i <= |failed| && counts.Keys == FAILURE_CATEGORIES
    && forall c :: c in FAILURE_CATEGORIES ==> counts[c] == CountCategory(failed[..i], c)
  }

  lemma TallyStep(failed: seq<Message>, i: nat, category: string, counts: map<string, nat>)
    requires i < |failed| && category == Category(ReasonOf(failed[i])) && Tallied(failed, i, counts)
    ensures Tallied(failed, i + 1, counts[category := counts[category] + 1])
  {
    CountCategoryStep(failed, i, category);
  }

  // ------------------------------------------------------------ response times

  /** The creation time of the user message still waiting for a reply after `s`, if any. */
  function Pending(s: seq<Message>): Option<int>
  {
    if s == [] then None
    else
      var m := s[|s| - 1];
      if m.role == ROLE_USER then Some(m.createdAt)
      else if m.role == ROLE_ASSISTANT && Pending(s[..|s| - 1]).Some? then None
      else Pending(s[..|s| - 1])
  }

  /** The response times of `s`: each user message paired with the first assistant reply after it. */
  function ResponsePairs(s: seq<Message>): seq<int>
  {
    if s == [] then []
    else
      var m, before := s[|s| - 1], Pending(s[..|s| - 1]);
      if m.role == ROLE_ASSISTANT && before.Some? then
        ResponsePairs(s[..|s| - 1]) + [m.createdAt - before.value]
      else ResponsePairs(s[..|s| - 1])
  }

  /** Each pair uses up one user message and one assistant reply. */
  lemma {:induction false} PairsBounded(s: seq<Message>)
    ensures |ResponsePairs(s)| + (if Pending(s).Some? then 1 else 0) <= Ordering.CountIf(s, IsUser)
    ensures |ResponsePairs(s)| <= Ordering.CountIf(s, IsAssistant)
  {
    if s != [] {
      PairsBounded(s[..|s| - 1]);
    }
  }

  /** A second reply in a row is not paired: only the first reply answers a user message. */
  lemma SecondReplyUnpaired(s: seq<Message>, a: Message, b: Message)
    requires a.role == ROLE_ASSISTANT && b.role == ROLE_ASSISTANT
    ensures ResponsePairs(s + [a, b]) == ResponsePairs(s + [a])
  {
    assert (s + [a, b])[..|s| + 1] == s + [a];
    assert (s + [a])[..|s|] == s;
  }

  function Identity(x: int): int { x }

  /** The response-time part of `calculate_message_metrics`: the pairs and their mean, None without pairs. */
  method ResponseTimes(messages: seq<Message>) returns (times: seq<int>, avg: Option<real>)
    ensures times == ResponsePairs(messages)
    ensures avg.None? <==> times == []
    ensures avg.Some? ==> avg.value == (Ordering.SumOf(times, Identity) as real) / (|times| as real)
  {
    times := [];
    var lastUserTime: Option<int> := None;
    for i := 0 to |messages|
      invariant times == ResponsePairs(messages[..i])
      invariant lastUserTime == Pending(messages[..i])
    {
      assert messages[..i + 1][..i] == messages[..i];
      var msg := messages[i];
      if msg.role == ROLE_USER {
        lastUserTime := Some(msg.createdAt);
      } else if msg.role == ROLE_ASSISTANT && lastUserTime.Some? {
        times := times + [msg.createdAt - lastUserTime.value];
        lastUserTime := None;
      }
    }
    assert messages[..|messages|] == messages;
    avg := if times == [] then None else Some((Ordering.SumOf(times, Identity) as real) / (|times| as real));
  }

  /** The metrics `calculate_message_metrics` caches for one session. */
  datatype SessionMetrics = SessionMetrics(
    total: nat,
    users: nat,
    assistants: nat,
    failed: nat,
    avgResponseTime: Option<real>,
    analysis: Quality)

  predicate IsFailed(m: Message) { m.status == STATUS_FAILED }

  /** The metrics of one session, given its messages in position order. */
  method CalculateSessionMetrics(messages: seq<Message>) returns (metrics: SessionMetrics)
    ensures metrics.total == |messages|
    ensures metrics.users == Ordering.CountIf(messages, IsUser)
    ensures metrics.assistants == Ordering.CountIf(messages, IsAssistant)
    ensures metrics.failed == Ordering.CountIf(messages, IsFailed)
    ensures metrics.users + metrics.assistants <= metrics.total
    ensures metrics.avgResponseTime.None? <==> ResponsePairs(messages) == []
    ensures metrics.analysis.depth == LongestUserRun(messages)
  {
    var analysis := AnalyzeConversationQuality(messages);
    var times, avg := ResponseTimes(messages);
    Ordering.CountIfSplit(messages, IsUser, IsAssistant, IsUserOrAssistant);
    metrics := SessionMetrics(
      |messages|,
      Ordering.CountIf(messages, IsUser),
      Ordering.CountIf(messages, IsAssistant),
      Ordering.CountIf(messages, IsFailed),
      avg,
      analysis);
  }

  predicate IsUserOrAssistant(m: Message) { IsUser(m) || IsAssistant(m) }

  // ------------------------------------------------------------ repeated user messages

  const LOOP_THRESHOLD: real := 0.8

  /**
   * Message `b` repeats message `a`: their similarity is above 0.8, stated on the word
   * counts as more than 4 shared words for every 5 distinct ones.
   */
  predicate Repeats(a: Message, b: Message)
  {
    var w1, w2 := Tokens(a.content), Tokens(b.content);
    w1 != {} && w2 != {} && 5 * |w1 * w2| > 4 * |w1 + w2|
  }

  /** A ratio is above 0.8 exactly when five times its numerator exceeds four times its denominator. */
  lemma AboveThreshold(n: nat, d: nat)
    requires 0 < d
    ensures (n as real) / (d as real) > LOOP_THRESHOLD <==> 5 * n > 4 * d
  {
    var r := (n as real) / (d as real);
    assert r * (d as real) == n as real;
  }

  /** `Repeats` is the threshold test on `Similarity`. */
  lemma RepeatsIffAbove(a: Message, b: Message)
    ensures Repeats(a, b) <==> Similarity(a.content, b.content) > LOOP_THRESHOLD
  {
    var w1, w2 := Tokens(a.content), Tokens(b.content);
    if w1 != {} && w2 != {} {
      JaccardSizes(w1, w2);
      assert Similarity(a.content, b.content) == (|w1 * w2| as real) / (|w1 + w2| as real);
      AboveThreshold(|w1 * w2|, |w1 + w2|);
    }
  }

  /** The first index from `j` on whose element satisfies `p`, None when there is none. */
  function FirstFrom<T>(xs: seq<T>, p: T -> bool, j: nat): (r: Option<nat>)
    ensures r.Some? ==> j <= r.value < |xs|
    decreases |xs| - j
  {
    if j >= |xs| then None
    else if p(xs[j]) then Some(j)
    else FirstFrom(xs, p, j + 1)
  }

  /** The index found satisfies `p` and none before it does; None means no index from `j` on does. */
  lemma {:induction false} FirstFromIsFirst<T>(xs: seq<T>, p: T -> bool, j: nat)
    ensures var r := FirstFrom(xs, p, j);
      && (r.Some? ==> p(xs[r.value]))
      && (r.Some? ==> forall k :: j <= k < r.value ==> !p(xs[k]))
      && (r.None? ==> forall k :: j <= k < |xs| ==> !p(xs[k]))
    decreases |xs| - j
  {
    if j < |xs| && !p(xs[j]) {
      FirstFromIsFirst(xs, p, j + 1);
    }
  }

  function RepeatsOf(a: Message): Message -> bool { (b: Message) => Repeats(a, b) }

  /** One record of `detect_conversation_loops`. */
  datatype LoopRecord = LoopRecord(session: Id, first: Id, second: Id, similarity: real)

  /** The record made for the `i`-th user message, if a later one repeats it. */
  function RecordFor(session: Id, users: seq<Message>, i: nat): (r: seq<LoopRecord>)
    requires i < |users|
    ensures |r| <= 1
  {
    match FirstFrom(users, RepeatsOf(users[i]), i + 1)
    case None => []
    case Some(j) => [LoopRecord(session, users[i].id, users[j].id, Similarity(users[i].content, users[j].content))]
  }

  /** The records made for the first `n` user messages. */
  function LoopsUpTo(session: Id, users: seq<Message>, n: nat): (r: seq<LoopRecord>)
    requires n <= |users|
    ensures |r| <= n
  {
    if n == 0 then [] else LoopsUpTo(session, users, n - 1) + RecordFor(session, users, n - 1)
  }

  /** No record is made for message `i` exactly when no later message repeats it. */
  lemma NoRecordIffNoRepeat(session: Id, users: seq<Message>, i: nat)
    requires i < |users|
    ensures RecordFor(session, users, i) == [] <==> forall k :: i < k < |users| ==> !Repeats(users[i], users[k])
  {
    var repeats := RepeatsOf(users[i]);
    FirstFromIsFirst(users, repeats, i + 1);
    if FirstFrom(users, repeats, i + 1).Some? {
      var f := FirstFrom(users, repeats, i + 1).value;
      assert repeats(users[f]);
    } else {
      forall k | i < k < |users| ensures !Repeats(users[i], users[k]) {
        assert !repeats(users[k]);
      }
    }
  }

  /** The record for message `i` names the first later message that repeats it. */
  lemma RecordIsFirstRepeat(session: Id, users: seq<Message>, i: nat, j: nat)
    requires i < j < |users|
    requires Repeats(users[i], users[j])
    requires forall k :: i < k < j ==> !Repeats(users[i], users[k])
    ensures RecordFor(session, users, i)
      == [LoopRecord(session, users[i].id, users[j].id, Similarity(users[i].content, users[j].content))]
  {
    var repeats := RepeatsOf(users[i]);
    FirstFromIsFirst(users, repeats, i + 1);
    assert repeats(users[j]);
    var r := FirstFrom(users, repeats, i + 1);
    assert r != None;
    var f := r.value;
    assert repeats(users[f]);
    assert !(f < j);
    assert f == j;
  }

  /** Every record is made for message `i` and carries a similarity above 0.8. */
  lemma RecordAboveThreshold(session: Id, users: seq<Message>, i: nat)
    requires i < |users|
    ensures forall r :: r in RecordFor(session, users, i) ==> r.first == users[i].id && r.similarity > LOOP_THRESHOLD
  {
    var repeats := RepeatsOf(users[i]);
    FirstFromIsFirst(users, repeats, i + 1);
    if FirstFrom(users, repeats, i + 1).Some? {
      var f := FirstFrom(users, repeats, i + 1).value;
      assert repeats(users[f]);
      RepeatsIffAbove(users[i], users[f]);
    }
  }

  /**
   * The inner loop of `detect_conversation_loops`: compares user message `i` with each later
   * one and stops at the first whose similarity exceeds 0.8.
   */
  method ScanLater(session: Id, users: seq<Message>, i: nat) returns (found: seq<LoopRecord>)
    requires i < |users|
    ensures found == RecordFor(session, users, i)
  {
    ghost var repeats := RepeatsOf(users[i]);
    ghost var first := FirstFrom(users, repeats, i + 1);
    found := [];
    var j := i + 1;
    while j < |users|
      invariant i + 1 <= j <= |users|
      invariant FirstFrom(users, repeats, j) == first
    {
      var similarity := Similarity(users[i].content, users[j].content);
      RepeatsIffAbove(users[i], users[j]);
      if similarity > LOOP_THRESHOLD {
        found := [LoopRecord(session, users[i].id, users[j].id, similarity)];
        return;
      }
      assert !repeats(users[j]);
      j := j + 1;
    }
  }

  /**
   * `detect_conversation_loops` for one session, given its user messages in position order:
   * for each message, the first later message with similarity above 0.8, at most one record
   * per message.
   */
  method DetectConversationLoops(session: Id, users: seq<Message>) returns (records: seq<LoopRecord>)
    ensures records == LoopsUpTo(session, users, |users|)
  {
    records := [];
    for i := 0 to |users|
      invariant records == LoopsUpTo(session, users, i)
    {
      var found := ScanLater(session, users, i);
      records := records + found;
    }
  }
}
