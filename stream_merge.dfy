/**
 * The consumers that merge two concurrent producers through one queue: the compare-mode
 * `stream` action of the message app (a `completed` flag per branch), the dual-response
 * stream of the comparison service and the model-comparison stream of the AI service (a
 * counter of end markers). Threads and tasks are not modelled: the order in which the two
 * producers' items reach the queue is an input, a schedule of picks, and each consumer is
 * a plain loop over the resulting queue contents.
 */
module StreamMerge {
  import opened Wrappers
  import opened Entities
  import MessageStore
  import StreamFrames

  /** What a producer puts on the queue: a value, or (in `finally`) its end marker. */
  datatype QueueItem<T> = Put(side: string, value: T) | Done(side: string)

  /** The values of the queue, in queue order, end markers skipped. */
  function Values<T>(q: seq<QueueItem<T>>): (vs: seq<T>)
    ensures |vs| <= |q|
  {
    if q == [] then []
    else (if q[0].Put? then [q[0].value] else []) + Values(q[1..])
  }

  /** The items one producer put on the queue, in queue order. */
  function SideItems<T>(q: seq<QueueItem<T>>, side: string): (r: seq<QueueItem<T>>)
    ensures forall x :: x in r ==> x in q && x.side == side
  {
    if q == [] then []
    else (if q[0].side == side then [q[0]] else []) + SideItems(q[1..], side)
  }

  /** The values one producer put on the queue, in queue order. */
  function Project<T>(q: seq<QueueItem<T>>, side: string): seq<T>
  {
    Values(SideItems(q, side))
  }

  /** The number of end markers on the queue. */
  function Ends<T>(q: seq<QueueItem<T>>): (n: nat)
    ensures n <= |q|
  {
    if q == [] then 0
    else (if q[0].Done? then 1 else 0) + Ends(q[1..])
  }

  /** A producer's values as queue items, in order. */
  function Puts<T>(side: string, xs: seq<T>): (ps: seq<QueueItem<T>>)
    ensures |ps| == |xs|
  {
    if xs == [] then [] else [Put(side, xs[0])] + Puts(side, xs[1..])
  }

  /** All a producer ever puts: its values in order, then its end marker. */
  function Worker<T>(side: string, xs: seq<T>): (w: seq<QueueItem<T>>)
    ensures |w| == |xs| + 1
  {
    Puts(side, xs) + [Done(side)]
  }

  /**
   * The queue contents for one schedule: `picks[k]` says whether the k-th item comes from the
   * first producer (true) or the second; once a producer is exhausted, or the picks run out,
   * the rest comes in order from whichever producer still has items.
   */
  function Merge<T>(wa: seq<QueueItem<T>>, wb: seq<QueueItem<T>>, picks: seq<bool>): (q: seq<QueueItem<T>>)
    ensures |q| == |wa| + |wb|
    decreases |wa| + |wb|
  {
    if wa == [] then wb
    else if wb == [] then wa
    else if picks == [] || picks[0] then [wa[0]] + Merge(wa[1..], wb, if picks == [] then [] else picks[1..])
    else [wb[0]] + Merge(wa, wb[1..], picks[1..])
  }

  // ---------------------------------------------------------------- facts about queues

  lemma {:induction false} ValuesAppend<T>(a: seq<QueueItem<T>>, b: seq<QueueItem<T>>)
    ensures Values(a + b) == Values(a) + Values(b)
  {
    if a == [] {
      assert a + b == b;
    } else {
      var ab := a + b;
      assert ab[0] == a[0] && ab[1..] == a[1..] + b;
      ValuesAppend(a[1..], b);
      var h: seq<T> := if a[0].Put? then [a[0].value] else [];
      assert Values(ab) == h + Values(ab[1..]);
      assert Values(a) == h + Values(a[1..]);
      assert h + (Values(a[1..]) + Values(b)) == (h + Values(a[1..])) + Values(b);
    }
  }

  lemma {:induction false} EndsAppend<T>(a: seq<QueueItem<T>>, b: seq<QueueItem<T>>)
    ensures Ends(a + b) == Ends(a) + Ends(b)
  {
    if a == [] {
      assert a + b == b;
    } else {
      var ab := a + b;
      assert ab[0] == a[0] && ab[1..] == a[1..] + b;
      EndsAppend(a[1..], b);
    }
  }

  /** Two different producers' markers are two markers. */
  lemma {:induction false} BothMarkersCount<T>(q: seq<QueueItem<T>>, a: string, b: string)
    requires a != b && Done(a) in q && Done(b) in q
    ensures Ends(q) >= 2
  {
    if q[0] == Done(a) {
      assert Done(b) in q[1..];
      OneMarkerCounts(q[1..], b);
    } else if q[0] == Done(b) {
      assert Done(a) in q[1..];
      OneMarkerCounts(q[1..], a);
    } else {
      assert Done(a) in q[1..] && Done(b) in q[1..];
      BothMarkersCount(q[1..], a, b);
    }
  }

  lemma {:induction false} OneMarkerCounts<T>(q: seq<QueueItem<T>>, a: string)
    requires Done(a) in q
    ensures Ends(q) >= 1
  {
    if q[0] != Done(a) {
      assert Done(a) in q[1..];
      OneMarkerCounts(q[1..], a);
    }
  }

  /** Every queue item is either a value or an end marker. */
  lemma {:induction false} ValuesCount<T>(q: seq<QueueItem<T>>)
    ensures |Values(q)| + Ends(q) == |q|
  {
    if q != [] {
      ValuesCount(q[1..]);
    }
  }

  /** Scheduling never reorders a producer's own items. */
  lemma {:induction false} MergeSide<T>(wa: seq<QueueItem<T>>, wb: seq<QueueItem<T>>, picks: seq<bool>, side: string)
    requires forall x :: x in wb ==> x.side != side
    ensures SideItems(Merge(wa, wb, picks), side) == SideItems(wa, side)
    decreases |wa| + |wb|
  {
    if wa == [] {
      NoSideItems(wb, side);
    } else if wb == [] {
    } else if picks == [] || picks[0] {
      var rest := if picks == [] then [] else picks[1..];
      MergeSide(wa[1..], wb, rest, side);
      assert Merge(wa, wb, picks)[1..] == Merge(wa[1..], wb, rest);
    } else {
      MergeSide(wa, wb[1..], picks[1..], side);
      assert Merge(wa, wb, picks)[1..] == Merge(wa, wb[1..], picks[1..]);
    }
  }

  lemma {:induction false} NoSideItems<T>(w: seq<QueueItem<T>>, side: string)
    requires forall x :: x in w ==> x.side != side
    ensures SideItems(w, side) == []
  {
    if w != [] {
      assert forall x :: x in w[1..] ==> x in w;
      NoSideItems(w[1..], side);
    }
  }

  /** Scheduling neither loses nor duplicates a marker. */
  lemma {:induction false} MergeEnds<T>(wa: seq<QueueItem<T>>, wb: seq<QueueItem<T>>, picks: seq<bool>)
    ensures Ends(Merge(wa, wb, picks)) == Ends(wa) + Ends(wb)
    decreases |wa| + |wb|
  {
    if wa == [] || wb == [] {
    } else if picks == [] || picks[0] {
      var rest := if picks == [] then [] else picks[1..];
      MergeEnds(wa[1..], wb, rest);
      assert Merge(wa, wb, picks)[1..] == Merge(wa[1..], wb, rest);
    } else {
      MergeEnds(wa, wb[1..], picks[1..]);
      assert Merge(wa, wb, picks)[1..] == Merge(wa, wb[1..], picks[1..]);
    }
  }

  /** The rest of a schedule after one pick. */
  function RestPicks(picks: seq<bool>): seq<bool>
  {
    if picks == [] then [] else picks[1..]
  }

  /** One step of a schedule: the first item, then the merge of what is left. */
  lemma MergeStep<T>(wa: seq<QueueItem<T>>, wb: seq<QueueItem<T>>, picks: seq<bool>)
    requires wa != [] && wb != []
    ensures picks == [] || picks[0] ==> Merge(wa, wb, picks) == [wa[0]] + Merge(wa[1..], wb, RestPicks(picks))
    ensures !(picks == [] || picks[0]) ==> Merge(wa, wb, picks) == [wb[0]] + Merge(wa, wb[1..], RestPicks(picks))
  {
  }

  /** The last item on the queue is the last item of one of the producers. */
  lemma {:induction false} MergeLast<T>(wa: seq<QueueItem<T>>, wb: seq<QueueItem<T>>, picks: seq<bool>)
    requires wa != [] && wb != []
    ensures Merge(wa, wb, picks)[|wa| + |wb| - 1] in {wa[|wa| - 1], wb[|wb| - 1]}
  {
    MergeLastOf(wa, wb, picks);
    var q := Merge(wa, wb, picks);
    assert q[|wa| + |wb| - 1] == Last(q);
  }

  /** MergeLast stated with `Last`, proved by cases on the first pick. */
  lemma {:induction false} MergeLastOf<T>(wa: seq<QueueItem<T>>, wb: seq<QueueItem<T>>, picks: seq<bool>)
    requires wa != [] && wb != []
    ensures Last(Merge(wa, wb, picks)) == Last(wa) || Last(Merge(wa, wb, picks)) == Last(wb)
    decreases |wa| + |wb|, 1
  {
    if picks == [] || picks[0] {
      MergeLastFirst(wa, wb, picks);
    } else {
      MergeLastSecond(wa, wb, picks);
    }
  }

  /** The last item of a non-empty sequence. */
  function Last<T>(q: seq<T>): T
    requires q != []
  {
    q[|q| - 1]
  }

  /** With one producer exhausted the queue is the other producer's items. */
  lemma MergeOneSided<T>(wa: seq<QueueItem<T>>, wb: seq<QueueItem<T>>, picks: seq<bool>)
    requires wa == [] || wb == []
    ensures Merge(wa, wb, picks) == wa + wb
  {
  }

  /** MergeLast when the schedule picks the first producer. */
  lemma {:induction false} MergeLastFirst<T>(wa: seq<QueueItem<T>>, wb: seq<QueueItem<T>>, picks: seq<bool>)
    requires wa != [] && wb != [] && (picks == [] || picks[0])
    ensures Last(Merge(wa, wb, picks)) == Last(wa) || Last(Merge(wa, wb, picks)) == Last(wb)
    decreases |wa| + |wb|, 0
  {
    MergeStep(wa, wb, picks);
    var tail, rest := wa[1..], RestPicks(picks);
    var m := Merge(tail, wb, rest);
    assert Last(Merge(wa, wb, picks)) == Last(m);
    if tail == [] {
      MergeOneSided(tail, wb, rest);
    } else {
      MergeLastOf(tail, wb, rest);
      assert Last(tail) == Last(wa);
    }
  }

  /** MergeLast when the schedule picks the second producer. */
  lemma {:induction false} MergeLastSecond<T>(wa: seq<QueueItem<T>>, wb: seq<QueueItem<T>>, picks: seq<bool>)
    requires wa != [] && wb != [] && !(picks == [] || picks[0])
    ensures Last(Merge(wa, wb, picks)) == Last(wa) || Last(Merge(wa, wb, picks)) == Last(wb)
    decreases |wa| + |wb|, 0
  {
    MergeStep(wa, wb, picks);
    var tail, rest := wb[1..], RestPicks(picks);
    var m := Merge(wa, tail, rest);
    assert Last(Merge(wa, wb, picks)) == Last(m);
    if tail == [] {
      MergeOneSided(wa, tail, rest);
    } else {
      MergeLastOf(wa, tail, rest);
      assert Last(tail) == Last(wb);
    }
  }

  lemma {:induction false} SideItemsAppend<T>(a: seq<QueueItem<T>>, b: seq<QueueItem<T>>, side: string)
    ensures SideItems(a + b, side) == SideItems(a, side) + SideItems(b, side)
  {
    if a == [] {
      assert a + b == b;
    } else {
      var ab := a + b;
      assert ab[0] == a[0] && ab[1..] == a[1..] + b;
      SideItemsAppend(a[1..], b, side);
      var h := if a[0].side == side then [a[0]] else [];
      assert SideItems(ab, side) == h + SideItems(ab[1..], side);
      assert h + (SideItems(a[1..], side) + SideItems(b, side)) == (h + SideItems(a[1..], side)) + SideItems(b, side);
    }
  }

  lemma {:induction false} PutsShape<T>(side: string, xs: seq<T>)
    ensures SideItems(Puts(side, xs), side) == Puts(side, xs)
    ensures Values(Puts(side, xs)) == xs
    ensures Ends(Puts(side, xs)) == 0
    ensures forall x :: x in Puts(side, xs) ==> x.side == side
  {
    if xs != [] {
      var p, tail := Puts(side, xs), Puts(side, xs[1..]);
      PutsShape(side, xs[1..]);
      assert p[0] == Put(side, xs[0]) && p[1..] == tail;
      assert [xs[0]] + xs[1..] == xs;
    }
  }

  lemma WorkerShape<T>(side: string, xs: seq<T>)
    ensures SideItems(Worker(side, xs), side) == Worker(side, xs)
    ensures Values(Worker(side, xs)) == xs
    ensures Ends(Worker(side, xs)) == 1
    ensures forall x :: x in Worker(side, xs) ==> x.side == side
  {
    var p: seq<QueueItem<T>> := Puts(side, xs);
    PutsShape(side, xs);
    SideItemsAppend(p, [Done(side)], side);
    ValuesAppend(p, [Done(side)]);
    EndsAppend(p, [Done(side)]);
  }

  // ---------------------------------------------------------------- consumers

  /**
   * The consumer of the compare-mode `stream` action: it keeps a `completed` flag per branch,
   * sets a branch's flag on that branch's end marker, yields every other item and stops as
   * soon as both flags are set. If the queue runs dry first, the source would keep waiting;
   * here the consumer returns with `finished` false.
   */
  method ConsumeUntilBoth<T>(q: seq<QueueItem<T>>) returns (out: seq<T>, used: nat, finished: bool)
    ensures used <= |q| && out == Values(q[..used])
    ensures finished <==> Done(PARTICIPANT_A) in q[..used] && Done(PARTICIPANT_B) in q[..used]
    ensures finished ==> used > 0 && !(Done(PARTICIPANT_A) in q[..used - 1] && Done(PARTICIPANT_B) in q[..used - 1])
    ensures !finished ==> used == |q|
  {
    var doneA, doneB := false, false;
    out, used := [], 0;
    while !(doneA && doneB) && used < |q|
      invariant used <= |q| && out == Values(q[..used])
      invariant doneA == (Done(PARTICIPANT_A) in q[..used]) && doneB == (Done(PARTICIPANT_B) in q[..used])
      invariant used > 0 ==> !(Done(PARTICIPANT_A) in q[..used - 1] && Done(PARTICIPANT_B) in q[..used - 1])
    {
      var item := q[used];
      assert q[..used + 1] == q[..used] + [item];
      ValuesAppend(q[..used], [item]);
      if item.Done? {
        if item.side == PARTICIPANT_A {
          doneA := true;
        } else if item.side == PARTICIPANT_B {
          doneB := true;
        }
      } else {
        out := out + [item.value];
      }
      used := used + 1;
    }
    finished := doneA && doneB;
  }

  /**
   * The consumer of the two service merges: it counts end markers, whoever put them, yields
   * every other item and stops when the count reaches two. If the queue runs dry first, the
   * source would keep waiting; here the consumer returns with `finished` false.
   */
  method ConsumeUntilTwo<T>(q: seq<QueueItem<T>>) returns (out: seq<T>, used: nat, finished: bool)
    ensures used <= |q| && out == Values(q[..used])
    ensures finished <==> Ends(q[..used]) == 2
    ensures finished ==> used > 0 && Ends(q[..used - 1]) == 1
    ensures !finished ==> used == |q| && Ends(q) < 2
  {
    var completed := 0;
    out, used := [], 0;
    while completed < 2 && used < |q|
      invariant used <= |q| && out == Values(q[..used])
      invariant completed == Ends(q[..used]) <= 2
      invariant used > 0 ==> Ends(q[..used - 1]) < 2
      invariant completed == 2 ==> used > 0 && Ends(q[..used - 1]) == 1
    {
      var item := q[used];
      assert q[..used + 1] == q[..used] + [item];
      ValuesAppend(q[..used], [item]);
      EndsAppend(q[..used], [item]);
      if item.Done? {
        completed := completed + 1;
      } else {
        out := out + [item.value];
      }
      used := used + 1;
    }
    assert q[..|q|] == q;
    finished := completed == 2;
  }

  // ---------------------------------------------------------------- complete producers

  /**
   * Whatever the schedule, the queue of two complete producers holds both markers, only its
   * last item completes the pair, and restricted to one side it is that producer's values in
   * that producer's order.
   */
  lemma MergedWorkers<T>(xs: seq<T>, ys: seq<T>, picks: seq<bool>, q: seq<QueueItem<T>>)
    requires q == Merge(Worker(PARTICIPANT_A, xs), Worker(PARTICIPANT_B, ys), picks)
    ensures Ends(q) == 2 && Ends(q[..|q| - 1]) == 1
    ensures Done(PARTICIPANT_A) in q && Done(PARTICIPANT_B) in q
    ensures !(Done(PARTICIPANT_A) in q[..|q| - 1] && Done(PARTICIPANT_B) in q[..|q| - 1])
    ensures Project(q, PARTICIPANT_A) == xs && Project(q, PARTICIPANT_B) == ys
  {
    var wa, wb := Worker(PARTICIPANT_A, xs), Worker(PARTICIPANT_B, ys);
    WorkerShape(PARTICIPANT_A, xs);
    WorkerShape(PARTICIPANT_B, ys);
    MergedProjections(wa, wb, picks, q);
    MergedMarkers(wa, wb, picks, q);
    assert Project(q, PARTICIPANT_A) == Values(wa);
  }

  lemma MergedProjections<T>(wa: seq<QueueItem<T>>, wb: seq<QueueItem<T>>, picks: seq<bool>, q: seq<QueueItem<T>>)
    requires forall x :: x in wa ==> x.side == PARTICIPANT_A
    requires forall x :: x in wb ==> x.side == PARTICIPANT_B
    requires SideItems(wa, PARTICIPANT_A) == wa && SideItems(wb, PARTICIPANT_B) == wb
    requires wa != [] && wb != [] && wa[|wa| - 1] == Done(PARTICIPANT_A) && wb[|wb| - 1] == Done(PARTICIPANT_B)
    requires q == Merge(wa, wb, picks)
    ensures Project(q, PARTICIPANT_A) == Values(wa) && Project(q, PARTICIPANT_B) == Values(wb)
    ensures Done(PARTICIPANT_A) in q && Done(PARTICIPANT_B) in q
  {
    assert PARTICIPANT_A != PARTICIPANT_B by { assert PARTICIPANT_A[0] != PARTICIPANT_B[0]; }
    MergeSide(wa, wb, picks, PARTICIPANT_A);
    MergeSideSwap(wa, wb, picks, PARTICIPANT_B);
    assert Done(PARTICIPANT_A) in SideItems(q, PARTICIPANT_A);
    assert Done(PARTICIPANT_B) in SideItems(q, PARTICIPANT_B);
  }

  lemma MergedMarkers<T>(wa: seq<QueueItem<T>>, wb: seq<QueueItem<T>>, picks: seq<bool>, q: seq<QueueItem<T>>)
    requires wa != [] && wb != [] && wa[|wa| - 1].Done? && wb[|wb| - 1].Done?
    requires Ends(wa) == 1 && Ends(wb) == 1
    requires q == Merge(wa, wb, picks)
    ensures Ends(q) == 2 && Ends(q[..|q| - 1]) == 1
            && !(Done(PARTICIPANT_A) in q[..|q| - 1] && Done(PARTICIPANT_B) in q[..|q| - 1])
  {
    MergeEnds(wa, wb, picks);
    MergeLast(wa, wb, picks);
    assert q[|q| - 1].Done?;
    DropLastMarker(q);
    assert PARTICIPANT_A != PARTICIPANT_B by { assert PARTICIPANT_A[0] != PARTICIPANT_B[0]; }
    OneMarkerNotBoth(q[..|q| - 1], PARTICIPANT_A, PARTICIPANT_B);
  }

  lemma OneMarkerNotBoth<T>(q: seq<QueueItem<T>>, a: string, b: string)
    requires a != b && Ends(q) < 2
    ensures !(Done(a) in q && Done(b) in q)
  {
    if Done(a) in q && Done(b) in q {
      BothMarkersCount(q, a, b);
    }
  }

  lemma DropLastMarker<T>(q: seq<QueueItem<T>>)
    requires q != [] && q[|q| - 1].Done?
    ensures Ends(q[..|q| - 1]) == Ends(q) - 1
  {
    var init, last := q[..|q| - 1], q[|q| - 1];
    assert q == init + [last];
    EndsAppend(init, [last]);
  }

  /** Scheduling never reorders the second producer's items either. */
  lemma {:induction false} MergeSideSwap<T>(wa: seq<QueueItem<T>>, wb: seq<QueueItem<T>>, picks: seq<bool>, side: string)
    requires forall x :: x in wa ==> x.side != side
    ensures SideItems(Merge(wa, wb, picks), side) == SideItems(wb, side)
    decreases |wa| + |wb|
  {
    if wa == [] {
    } else if wb == [] {
      NoSideItems(wa, side);
    } else if picks == [] || picks[0] {
      var rest := if picks == [] then [] else picks[1..];
      MergeSideSwap(wa[1..], wb, rest, side);
      assert Merge(wa, wb, picks)[1..] == Merge(wa[1..], wb, rest);
    } else {
      MergeSideSwap(wa, wb[1..], picks[1..], side);
      assert Merge(wa, wb, picks)[1..] == Merge(wa, wb[1..], picks[1..]);
    }
  }

  /** Both consumers drain the whole queue of two complete producers. */
  lemma ConsumersDrain<T>(q: seq<QueueItem<T>>, used: nat)
    requires 0 < used <= |q| && Ends(q[..|q| - 1]) == 1
    requires Ends(q[..used]) == 2 || (Done(PARTICIPANT_A) in q[..used] && Done(PARTICIPANT_B) in q[..used])
    ensures used == |q|
  {
    if used < |q| {
      var init := q[..|q| - 1];
      assert q[..used] == init[..used];
      assert init == q[..used] + init[used..];
      EndsAppend(q[..used], init[used..]);
      if Ends(q[..used]) != 2 {
        BothMarkersCount(q[..used], PARTICIPANT_A, PARTICIPANT_B);
      }
    }
  }

  // ---------------------------------------------------------------- the three merges

  /**
   * The compare-mode `stream` action: two branch workers run against their providers, the
   * schedule decides how their frames reach the queue, and the consumer yields frames until
   * both end markers have arrived.
   */
  method CompareStream(replyA: Message, chunksA: seq<string>, failureA: Option<string>,
                       replyB: Message, chunksB: seq<string>, failureB: Option<string>, picks: seq<bool>)
    returns (out: seq<string>, runA: StreamFrames.BranchRun, runB: StreamFrames.BranchRun)
    ensures runA.frames == StreamFrames.ChunkFrames('a', StreamFrames.NonEmpty(chunksA)) + [StreamFrames.DoneFrame('a', failureA)]
    ensures runB.frames == StreamFrames.ChunkFrames('b', StreamFrames.NonEmpty(chunksB)) + [StreamFrames.DoneFrame('b', failureB)]
    ensures var q := Merge(Worker(PARTICIPANT_A, runA.frames), Worker(PARTICIPANT_B, runB.frames), picks);
            out == Values(q) && Project(q, PARTICIPANT_A) == runA.frames && Project(q, PARTICIPANT_B) == runB.frames
  {
    runA := StreamFrames.RunBranch('a', replyA, chunksA, failureA);
    runB := StreamFrames.RunBranch('b', replyB, chunksB, failureB);
    var q := Merge(Worker(PARTICIPANT_A, runA.frames), Worker(PARTICIPANT_B, runB.frames), picks);
    var used, finished;
    out, used, finished := ConsumeUntilBoth(q);
    MergedWorkers(runA.frames, runB.frames, picks, q);
    if finished {
      ConsumersDrain(q, used);
    }
    assert q[..used] == q;
  }

  /** An event of one reply, tagged with the participant whose reply it belongs to. */
  datatype TaggedEvent = TaggedEvent(participant: string, event: MessageStore.StreamEvent)

  function Tag(participant: string, events: seq<MessageStore.StreamEvent>): (ts: seq<TaggedEvent>)
    ensures |ts| == |events|
    ensures forall i :: 0 <= i < |events| ==> ts[i] == TaggedEvent(participant, events[i])
  {
    seq(|events|, i requires 0 <= i < |events| => TaggedEvent(participant, events[i]))
  }

  /**
   * `stream_dual_responses`: outside compare mode it raises before anything starts; otherwise
   * the two replies' events (each as streamed for participant a and b) are tagged and merged,
   * and the stream ends after the second end marker.
   */
  method DualResponses(session: ChatSession, eventsA: seq<MessageStore.StreamEvent>,
                       eventsB: seq<MessageStore.StreamEvent>, picks: seq<bool>)
    returns (r: Result<seq<TaggedEvent>>)
    ensures r.Err? <==> session.mode != MODE_COMPARE
    ensures r.Ok? ==> var q := Merge(Worker(PARTICIPANT_A, Tag(PARTICIPANT_A, eventsA)),
                                     Worker(PARTICIPANT_B, Tag(PARTICIPANT_B, eventsB)), picks);
                      r.value == Values(q)
                      && Project(q, PARTICIPANT_A) == Tag(PARTICIPANT_A, eventsA)
                      && Project(q, PARTICIPANT_B) == Tag(PARTICIPANT_B, eventsB)
  {
    if session.mode != MODE_COMPARE {
      return Err("Session must be in compare mode");
    }
    var xs, ys := Tag(PARTICIPANT_A, eventsA), Tag(PARTICIPANT_B, eventsB);
    var q := Merge(Worker(PARTICIPANT_A, xs), Worker(PARTICIPANT_B, ys), picks);
    var out, used, finished := ConsumeUntilTwo(q);
    MergedWorkers(xs, ys, picks, q);
    if finished {
      ConsumersDrain(q, used);
    }
    assert q[..used] == q;
    r := Ok(out);
  }
}
