/**
 * The streaming manager of the message app: server-sent events framing of a generator's items
 * (an event is `data: <payload>` followed by a blank line, section 9.2 of the WHATWG HTML Living
 * Standard) and the retry wrapper around a stream. JSON encoding is not modelled: `dumps`
 * stands for `json.dumps` of an item and `quote` for the JSON string literal of a text.
 */
module Sse {
  import opened Wrappers
  import Text
  import Ordering

  /** What a generator does when iterated: it yields `items`, then ends or raises `failure`. */
  datatype Run<T> = Run(items: seq<T>, failure: Option<string>)

  /** One server-sent event carrying a payload. */
  function Event(payload: string): string
  {
    "data: " + payload + "\n\n"
  }

  /** The payload of an event: the text between `data: ` and the closing blank line. */
  function PayloadOf(event: string): string
  {
    if |event| >= 8 then event[6..|event| - 2] else ""
  }

  lemma PayloadOfEvent(payload: string)
    ensures PayloadOf(Event(payload)) == payload
  {
    var e := Event(payload);
    assert e[6..|e| - 2] == payload;
  }

  const DONE_PAYLOAD: string := "{\"type\": \"done\"}"

  function ErrorPayload(quoted: string): string
  {
    "{\"type\": \"error\", \"error\": " + quoted + "}"
  }

  /** The HTTP response around the event stream. */
  datatype Response = Response(contentType: string, headers: map<string, string>)

  /** The response headers: an event stream that neither the browser nor a proxy may buffer. */
  function StreamingResponse(): (r: Response)
    ensures r.contentType == "text/event-stream"
    ensures "Cache-Control" in r.headers && r.headers["Cache-Control"] == "no-cache"
    ensures "X-Accel-Buffering" in r.headers && r.headers["X-Accel-Buffering"] == "no"
    ensures r.headers.Keys == {"Cache-Control", "X-Accel-Buffering"}
  {
    Response("text/event-stream", map["Cache-Control" := "no-cache", "X-Accel-Buffering" := "no"])
  }

  /**
   * `create_streaming_response`'s event stream: one event per item, then one `done` event; if
   * the generator raises, one `error` event with the error text takes the place of `done`.
   */
  method EventStream<T>(run: Run<T>, dumps: T -> string, quote: string -> string) returns (events: seq<string>)
    ensures |events| == |run.items| + 1
    ensures forall i :: 0 <= i < |run.items| ==> PayloadOf(events[i]) == dumps(run.items[i])
    ensures run.failure.None? ==> PayloadOf(events[|run.items|]) == DONE_PAYLOAD
    ensures run.failure.Some? ==> PayloadOf(events[|run.items|]) == ErrorPayload(quote(run.failure.value))
    ensures forall i :: 0 <= i < |events| ==> |events[i]| >= 8 && events[i][..6] == "data: " && events[i][|events[i]| - 2..] == "\n\n"
  {
    events := [];
    for i := 0 to |run.items|
      invariant |events| == i
      invariant forall j :: 0 <= j < i ==> events[j] == Event(dumps(run.items[j]))
    {
      events := events + [Event(dumps(run.items[i]))];
    }
    var last := if run.failure.None? then DONE_PAYLOAD else ErrorPayload(quote(run.failure.value));
    events := events + [Event(last)];
    forall i | 0 <= i < |events|
      ensures PayloadOf(events[i]) == (if i < |run.items| then dumps(run.items[i]) else last)
      ensures |events[i]| >= 8 && events[i][..6] == "data: " && events[i][|events[i]| - 2..] == "\n\n"
    {
      var p := if i < |run.items| then dumps(run.items[i]) else last;
      PayloadOfEvent(p);
      assert events[i] == Event(p);
    }
  }

  /** What Python raises when a plain `for` loop is given an async generator. */
  const ASYNC_NOT_ITERABLE: string := "'async_generator' object is not iterable"

  /** A generator handed to `create_streaming_response`: a plain one, or an async one. */
  datatype Source<T> = SyncGenerator(run: Run<T>) | AsyncGenerator(run: Run<T>)

  /**
   * What `for data in generator` sees: a plain generator's run; an async generator cannot be
   * iterated at all, so the loop raises before any item.
   */
  function Iterated<T>(source: Source<T>): (r: Run<T>)
    ensures source.SyncGenerator? ==> r == source.run
    ensures source.AsyncGenerator? ==> r.items == [] && r.failure == Some(ASYNC_NOT_ITERABLE)
  {
    match source
    case SyncGenerator(run) => run
    case AsyncGenerator(_) => Run([], Some(ASYNC_NOT_ITERABLE))
  }

  /**
   * The regenerate action as written: the relabelling wrapper around the reply stream is an
   * async generator, so the response is one error event, whatever the reply stream does.
   */
  method RegenerateStreamAsWritten<T>(reply: Run<T>, relabel: T -> T, dumps: T -> string, quote: string -> string)
    returns (events: seq<string>)
    ensures |events| == 1 && PayloadOf(events[0]) == ErrorPayload(quote(ASYNC_NOT_ITERABLE))
  {
    var wrapped := AsyncGenerator(Run(seq(|reply.items|, i requires 0 <= i < |reply.items| => relabel(reply.items[i])), reply.failure));
    events := EventStream(Iterated(wrapped), dumps, quote);
  }

  /**
   * The regenerate action as intended: each event of the reply stream, relabelled with the
   * new message's id, then `done`, or the error the reply stream raised.
   */
  method RegenerateStream<T>(reply: Run<T>, relabel: T -> T, dumps: T -> string, quote: string -> string)
    returns (events: seq<string>)
    ensures |events| == |reply.items| + 1
    ensures forall i :: 0 <= i < |reply.items| ==> PayloadOf(events[i]) == dumps(relabel(reply.items[i]))
    ensures reply.failure.None? ==> PayloadOf(events[|reply.items|]) == DONE_PAYLOAD
    ensures reply.failure.Some? ==> PayloadOf(events[|reply.items|]) == ErrorPayload(quote(reply.failure.value))
  {
    var relabelled := seq(|reply.items|, i requires 0 <= i < |reply.items| => relabel(reply.items[i]));
    events := EventStream(Iterated(SyncGenerator(Run(relabelled, reply.failure))), dumps, quote);
  }

  // ---------------------------------------------------------------- retry

  /** What the retry wrapper yields: an item, a retry notice, or the final error. */
  datatype RetryItem<T> = Item(value: T) | Retry(attempt: nat, error: string) | Failed(error: string)

  function Items<T>(xs: seq<T>): (r: seq<RetryItem<T>>)
    ensures |r| == |xs| && forall i :: 0 <= i < |xs| ==> r[i] == Item(xs[i])
  {
    seq(|xs|, i requires 0 <= i < |xs| => Item(xs[i]))
  }

  /** The final error text, after `maxRetries` failed passes. */
  function GiveUpMessage(maxRetries: nat, error: string): string
  {
    "Failed after " + Text.NatToString(maxRetries) + " retries: " + error
  }

  /**
   * What the wrapper yields from pass `r` on (`r` passes have failed so far): the pass's
   * items; then nothing more if it completed; otherwise the final error if this was the last
   * allowed failure, or a retry notice and the next pass.
   */
  function RetryOutput<T>(pass: nat -> Run<T>, maxRetries: int, r: nat): seq<RetryItem<T>>
    decreases maxRetries - r, 1
  {
    if r >= maxRetries then []
    else Items(pass(r).items) + PassEnd(pass, maxRetries, r)
  }

  /** What follows the items of pass `r`. */
  function PassEnd<T>(pass: nat -> Run<T>, maxRetries: int, r: nat): seq<RetryItem<T>>
    decreases maxRetries - r, 0
  {
    if r >= maxRetries || pass(r).failure.None? then []
    else if r + 1 >= maxRetries then [Failed(GiveUpMessage(r + 1, pass(r).failure.value))]
    else [Retry(r + 1, pass(r).failure.value)] + RetryOutput(pass, maxRetries, r + 1)
  }

  /** The number of failed passes among passes `r` .. before the first that completes, capped at `maxRetries`. */
  function FailedPasses<T>(pass: nat -> Run<T>, maxRetries: int, r: nat): nat
    decreases maxRetries - r
  {
    if r >= maxRetries || pass(r).failure.None? then 0 else 1 + FailedPasses(pass, maxRetries, r + 1)
  }

  predicate IsRetry<T>(x: RetryItem<T>) { x.Retry? }

  /**
   * `stream_with_retry`, where `pass(k)` is what iterating the stream yields on pass k + 1. Each
   * failed pass raises the counter; the wrapper then gives up with an error item if the counter
   * reached `maxRetries`, or yields a retry notice with the counter and sleeps `retryDelay`
   * times the counter before the next pass. A pass that completes ends the loop.
   */
  method StreamWithRetry<T>(pass: nat -> Run<T>, maxRetries: int, retryDelay: real)
    returns (out: seq<RetryItem<T>>, delays: seq<real>)
    ensures out == RetryOutput(pass, maxRetries, 0)
    ensures |delays| == Ordering.CountIf(out, IsRetry)
    ensures delays == Delays(retryDelay, |delays|)
  {
    var retries: nat := 0;
    out, delays := [], [];
    while retries < maxRetries
      invariant out + RetryOutput(pass, maxRetries, retries) == RetryOutput(pass, maxRetries, 0)
      invariant |delays| == retries == Ordering.CountIf(out, IsRetry)
      invariant delays == Delays(retryDelay, retries)
      decreases maxRetries - retries
    {
      var run := pass(retries);
      var items := Items(run.items);
      RetryStep(pass, maxRetries, retries, out, items);
      out := out + items;
      if run.failure.None? {
        assert out + [] == out;
        return;
      }
      retries := retries + 1;
      if retries >= maxRetries {
        out := out + [Failed(GiveUpMessage(retries, run.failure.value))];
        return;
      }
      var notice := Retry(retries, run.failure.value);
      RetryNotice(pass, maxRetries, retries - 1, out, notice);
      out := out + [notice];
      DelaysSnoc(retryDelay, retries);
      delays := delays + [retryDelay * retries as real];
    }
    assert out + [] == out;
  }

  /** The sleeps after the first `k` failures: the n-th lasts `retryDelay` times n. */
  function Delays(retryDelay: real, k: nat): (ds: seq<real>)
    ensures |ds| == k
  {
    seq(k, n requires 0 <= n < k => retryDelay * (n + 1) as real)
  }

  lemma DelaysSnoc(retryDelay: real, k: nat)
    requires k > 0
    ensures Delays(retryDelay, k) == Delays(retryDelay, k - 1) + [retryDelay * k as real]
  {
    var a, b := Delays(retryDelay, k), Delays(retryDelay, k - 1) + [retryDelay * k as real];
    assert forall n :: 0 <= n < k ==> a[n] == b[n];
  }

  /** One pass of the retry loop, as the state it leaves behind. */
  lemma RetryStep<T>(pass: nat -> Run<T>, maxRetries: int, r: nat, out: seq<RetryItem<T>>, items: seq<RetryItem<T>>)
    requires r < maxRetries && items == Items(pass(r).items)
    ensures Ordering.CountIf(out + items, IsRetry) == Ordering.CountIf(out, IsRetry)
    ensures out + RetryOutput(pass, maxRetries, r) == (out + items) + PassEnd(pass, maxRetries, r)
  {
    ItemsNoRetry(pass(r).items);
    Ordering.CountIfAppend(out, items, IsRetry);
    RetryUnfold(pass, maxRetries, r, out, items);
  }

  lemma RetryUnfold<T>(pass: nat -> Run<T>, maxRetries: int, r: nat, out: seq<RetryItem<T>>, items: seq<RetryItem<T>>)
    requires r < maxRetries && items == Items(pass(r).items)
    ensures out + RetryOutput(pass, maxRetries, r) == (out + items) + PassEnd(pass, maxRetries, r)
  {
    var rest := PassEnd(pass, maxRetries, r);
    assert RetryOutput(pass, maxRetries, r) == items + rest;
  }

  /** A failed pass that is not the last allowed one adds exactly one retry notice. */
  lemma RetryNotice<T>(pass: nat -> Run<T>, maxRetries: int, r: nat, out: seq<RetryItem<T>>, notice: RetryItem<T>)
    requires r + 1 < maxRetries && pass(r).failure.Some? && notice == Retry(r + 1, pass(r).failure.value)
    ensures out + PassEnd(pass, maxRetries, r) == (out + [notice]) + RetryOutput(pass, maxRetries, r + 1)
    ensures Ordering.CountIf(out + [notice], IsRetry) == Ordering.CountIf(out, IsRetry) + 1
  {
    Ordering.CountIfAppend(out, [notice], IsRetry);
  }

  lemma ItemsNoRetry<T>(xs: seq<T>)
    ensures Ordering.CountIf(Items(xs), IsRetry) == 0
  {
    Ordering.CountIfNone(Items(xs), IsRetry);
  }

  // ---------------------------------------------------------------- what the retries promise

  predicate IsFailed<T>(x: RetryItem<T>) { x.Failed? }

  /** The attempt numbers of the retry notices, in order. */
  function Attempts<T>(out: seq<RetryItem<T>>): seq<nat>
  {
    if out == [] then [] else (if out[0].Retry? then [out[0].attempt] else []) + Attempts(out[1..])
  }

  lemma {:induction false} AttemptsAppend<T>(a: seq<RetryItem<T>>, b: seq<RetryItem<T>>)
    ensures Attempts(a + b) == Attempts(a) + Attempts(b)
  {
    if a == [] {
      assert a + b == b;
    } else {
      assert (a + b)[0] == a[0] && (a + b)[1..] == a[1..] + b;
      AttemptsAppend(a[1..], b);
      var h: seq<nat> := if a[0].Retry? then [a[0].attempt] else [];
      assert h + (Attempts(a[1..]) + Attempts(b)) == (h + Attempts(a[1..])) + Attempts(b);
    }
  }

  lemma {:induction false} ItemsHaveNoAttempts<T>(xs: seq<T>)
    ensures Attempts(Items(xs)) == []
  {
    if xs != [] {
      assert Items(xs)[1..] == Items(xs[1..]);
      ItemsHaveNoAttempts(xs[1..]);
    }
  }

  /** Every pass of the stream fails, from pass `r` up to the last allowed one. */
  ghost predicate AllFail<T>(pass: nat -> Run<T>, r: nat, maxRetries: int)
  {
    forall k: nat :: r <= k < maxRetries ==> pass(k).failure.Some?
  }

  /**
   * The retry notices count the failures: they carry the attempts r + 1, r + 2, … in order,
   * and no notice reaches `maxRetries`.
   */
  lemma {:induction false} RetryNoticesCount<T>(pass: nat -> Run<T>, maxRetries: int, r: nat)
    ensures var a := Attempts(RetryOutput(pass, maxRetries, r));
            (forall i :: 0 <= i < |a| ==> a[i] == r + 1 + i) && (a != [] ==> r + |a| < maxRetries)
    decreases maxRetries - r
  {
    if r < maxRetries {
      var items := Items(pass(r).items);
      AttemptsAppend(items, PassEnd(pass, maxRetries, r));
      ItemsHaveNoAttempts(pass(r).items);
      if pass(r).failure.Some? && r + 1 < maxRetries {
        var notice: RetryItem<T> := Retry(r + 1, pass(r).failure.value);
        AttemptsAppend([notice], RetryOutput(pass, maxRetries, r + 1));
        RetryNoticesCount(pass, maxRetries, r + 1);
      }
    }
  }

  /**
   * The wrapper gives up (one final error item) exactly when every allowed pass fails.
   */
  lemma {:induction false} GiveUpIff<T>(pass: nat -> Run<T>, maxRetries: int, r: nat)
    ensures Ordering.CountIf(RetryOutput(pass, maxRetries, r), IsFailed)
            == if r < maxRetries && AllFail(pass, r, maxRetries) then 1 else 0
    decreases maxRetries - r
  {
    if r < maxRetries {
      var items := Items(pass(r).items);
      var end := PassEnd(pass, maxRetries, r);
      Ordering.CountIfAppend(items, end, IsFailed);
      Ordering.CountIfNone(items, IsFailed);
      if pass(r).failure.None? {
        assert !AllFail(pass, r, maxRetries);
      } else if r + 1 < maxRetries {
        var notice: RetryItem<T> := Retry(r + 1, pass(r).failure.value);
        var rest := RetryOutput(pass, maxRetries, r + 1);
        assert end == [notice] + rest;
        Ordering.CountIfAppend([notice], rest, IsFailed);
        GiveUpIff(pass, maxRetries, r + 1);
        AllFailStep(pass, r, maxRetries);
      }
    }
  }

  lemma AllFailStep<T>(pass: nat -> Run<T>, r: nat, maxRetries: int)
    requires r + 1 < maxRetries && pass(r).failure.Some?
    ensures AllFail(pass, r, maxRetries) <==> AllFail(pass, r + 1, maxRetries)
  {
  }

  /** When the wrapper gives up, the final error is its last item and carries `maxRetries` and the last pass's error. */
  lemma {:induction false} GiveUpLast<T>(pass: nat -> Run<T>, maxRetries: int, r: nat, out: seq<RetryItem<T>>)
    requires r < maxRetries && AllFail(pass, r, maxRetries) && out == RetryOutput(pass, maxRetries, r)
    ensures out != [] && out[|out| - 1] == Failed(GiveUpMessage(maxRetries, pass(maxRetries - 1).failure.value))
    decreases maxRetries - r
  {
    var items := Items(pass(r).items);
    var end := PassEnd(pass, maxRetries, r);
    assert pass(r).failure.Some?;
    if r + 1 < maxRetries {
      var notice: RetryItem<T> := Retry(r + 1, pass(r).failure.value);
      var rest := RetryOutput(pass, maxRetries, r + 1);
      GiveUpLast(pass, maxRetries, r + 1, rest);
      assert out == (items + [notice]) + rest;
    }
  }

  /** A first pass that completes is passed through untouched: no retry notice, no error. */
  lemma FirstPassCompletes<T>(pass: nat -> Run<T>, maxRetries: int)
    requires maxRetries >= 1 && pass(0).failure.None?
    ensures RetryOutput(pass, maxRetries, 0) == Items(pass(0).items)
  {
    assert RetryOutput(pass, maxRetries, 0) == Items(pass(0).items) + [];
  }

  /** Notices and the final error together count the failed passes, never more than `maxRetries`. */
  lemma {:induction false} FailuresBounded<T>(pass: nat -> Run<T>, maxRetries: int, r: nat)
    ensures var out := RetryOutput(pass, maxRetries, r);
            Ordering.CountIf(out, IsRetry) + Ordering.CountIf(out, IsFailed) == FailedPasses(pass, maxRetries, r)
    ensures r <= maxRetries ==> FailedPasses(pass, maxRetries, r) <= maxRetries - r
    decreases maxRetries - r
  {
    if r < maxRetries {
      var items := Items(pass(r).items);
      var end := PassEnd(pass, maxRetries, r);
      Ordering.CountIfAppend(items, end, IsFailed);
      Ordering.CountIfAppend(items, end, IsRetry);
      Ordering.CountIfNone(items, IsFailed);
      ItemsNoRetry(pass(r).items);
      if pass(r).failure.Some? && r + 1 < maxRetries {
        var notice: RetryItem<T> := Retry(r + 1, pass(r).failure.value);
        var rest := RetryOutput(pass, maxRetries, r + 1);
        Ordering.CountIfAppend([notice], rest, IsFailed);
        Ordering.CountIfAppend([notice], rest, IsRetry);
        FailuresBounded(pass, maxRetries, r + 1);
      }
    }
  }

  // ---------------------------------------------------------------- the stream as written

  /**
   * The passes the wrapper actually sees: it is handed one generator, and a generator that
   * raised is finished, so every later pass yields nothing and completes.
   */
  function ReusedGenerator<T>(first: Run<T>): nat -> Run<T>
  {
    k => if k == 0 then first else Run([], None)
  }

  /**
   * With the generator reused, a failing stream is never retried: the wrapper yields the
   * items, one retry notice, and then ends quietly at the second pass, without ever giving
   * up with an error, whatever `maxRetries` (at least 2) says.
   */
  lemma RetryReusesGenerator<T>(first: Run<T>, maxRetries: int)
    requires maxRetries >= 2 && first.failure.Some?
    ensures RetryOutput(ReusedGenerator(first), maxRetries, 0) == Items(first.items) + [Retry(1, first.failure.value)]
    ensures Ordering.CountIf(RetryOutput(ReusedGenerator(first), maxRetries, 0), IsFailed) == 0
  {
    var pass := ReusedGenerator(first);
    assert pass(0) == first && pass(1) == Run([], None);
    assert pass(1).items == [] && pass(1).failure.None?;
    assert Items(pass(1).items) == [];
    assert RetryOutput(pass, maxRetries, 1) == [];
    GiveUpIff(pass, maxRetries, 0);
    assert !AllFail(pass, 0, maxRetries);
  }
}
