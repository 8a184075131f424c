/**
 * What the poll and fulfilment generators produce: the order of requests
 * and elements, laziness, errors, and the behaviour of the `while more`
 * loop.
 */
module PaginationProperties {
  import opened Wrappers
  import opened Taxii
  import opened Client11
  import opened Pagination

  // ---------------------------------------------------------------------
  // Event bookkeeping

  lemma {:induction false} YieldsAppend<B>(t1: seq<Event<B>>, t2: seq<Event<B>>)
    ensures Yields(t1 + t2) == Yields(t1) + Yields(t2)
    decreases |t1|
  {
    var t := t1 + t2;
    if |t1| == 0 {
      assert t == t2;
    } else {
      assert t[0] == t1[0];
      assert t[1..] == t1[1..] + t2;
      YieldsAppend(t1[1..], t2);
      assert Yields(t) == (if t1[0].Yielded? then [t1[0].block] else []) + Yields(t1[1..] + t2);
    }
  }

  lemma {:induction false} RequestsAppend<B>(t1: seq<Event<B>>, t2: seq<Event<B>>)
    ensures Requests(t1 + t2) == Requests(t1) + Requests(t2)
    decreases |t1|
  {
    var t := t1 + t2;
    if |t1| == 0 {
      assert t == t2;
    } else {
      assert t[0] == t1[0];
      assert t[1..] == t1[1..] + t2;
      RequestsAppend(t1[1..], t2);
      assert Requests(t) == (if t1[0].Sent? then [t1[0].dispatch] else []) + Requests(t1[1..] + t2);
    }
  }

  lemma EventsAppend<B>(t1: seq<Event<B>>, t2: seq<Event<B>>)
    ensures Yields(t1 + t2) == Yields(t1) + Yields(t2)
    ensures Requests(t1 + t2) == Requests(t1) + Requests(t2)
  {
    YieldsAppend(t1, t2);
    RequestsAppend(t1, t2);
  }

  lemma {:induction false} YieldAllEvents<B>(convert: WireBlock -> B, blocks: seq<WireBlock>)
    ensures Yields(YieldAll(convert, blocks)) == Converted(convert, blocks)
    ensures Requests(YieldAll(convert, blocks)) == []
    decreases |blocks|
  {
    if |blocks| > 0 {
      assert YieldAll(convert, blocks)[1..] == YieldAll(convert, blocks[1..]);
      YieldAllEvents(convert, blocks[1..]);
      assert Converted(convert, blocks) == [convert(blocks[0])] + Converted(convert, blocks[1..]);
    }
  }

  // ---------------------------------------------------------------------
  // Running a poll generator in stages

  /** Running k1 + k2 steps is running k1 steps and then k2 more from where they left off. */
  lemma {:induction false} RunSplit<B>(re: bool, a: PollArgs, env: Env<B>, s: PollState, k1: nat, k2: nat)
    ensures PollRun(re, a, env, s, k1 + k2)
            == PollRun(re, a, env, s, k1) + PollRun(re, a, env, After(re, a, env, s, k1), k2)
    ensures After(re, a, env, s, k1 + k2) == After(re, a, env, After(re, a, env, s, k1), k2)
    decreases k1
  {
    if k1 > 0 && !s.Exhausted? {
      var s' := PollStep(re, a, env, s).1;
      RunSplit(re, a, env, s', k1 - 1, k2);
      assert k1 + k2 - 1 == (k1 - 1) + k2;
    }
  }

  /**
   * Asking for more never changes what was already produced: the events,
   * and so the elements the consumer received before an error, are a
   * prefix of every longer run.
   */
  lemma PollEventsGrow<B>(a: PollArgs, env: Env<B>, k: nat, k': nat)
    requires k <= k'
    ensures PollEvents(a, env, k) <= PollEvents(a, env, k')
    ensures Yields(PollEvents(a, env, k)) <= Yields(PollEvents(a, env, k'))
  {
    RunSplit(false, a, env, Unstarted, k, k' - k);
    var rest := PollRun(false, a, env, After(false, a, env, Unstarted, k), k' - k);
    EventsAppend(PollEvents(a, env, k), rest);
  }

  lemma {:induction false} InitialSegment<B>(re: bool, a: PollArgs, env: Env<B>, r: PollResponse, i: nat, n: nat)
    requires i + n <= |r.contentBlocks|
    ensures PollRun(re, a, env, InInitial(r, i), n) == YieldAll(env.convert, r.contentBlocks[i..i + n])
    ensures After(re, a, env, InInitial(r, i), n) == InInitial(r, i + n)
    decreases n
  {
    if n > 0 {
      InitialSegment(re, a, env, r, i + 1, n - 1);
      assert YieldAll(env.convert, r.contentBlocks[i..i + n])
          == [Yielded(env.convert(r.contentBlocks[i]))] + YieldAll(env.convert, r.contentBlocks[i + 1..i + n]);
    }
  }

  lemma {:induction false} PartSegment<B>(re: bool, a: PollArgs, env: Env<B>, g: PollResponse, k: nat,
                                          p: PollResponse, i: nat, n: nat)
    requires i + n <= |p.contentBlocks|
    ensures PollRun(re, a, env, InPart(g, k, PartBlocks(p, i)), n) == YieldAll(env.convert, p.contentBlocks[i..i + n])
    ensures After(re, a, env, InPart(g, k, PartBlocks(p, i)), n) == InPart(g, k, PartBlocks(p, i + n))
    decreases n
  {
    if n > 0 {
      PartSegment(re, a, env, g, k, p, i + 1, n - 1);
      assert YieldAll(env.convert, p.contentBlocks[i..i + n])
          == [Yielded(env.convert(p.contentBlocks[i]))] + YieldAll(env.convert, p.contentBlocks[i + 1..i + n]);
    }
  }

  // ---------------------------------------------------------------------
  // The initial response

  /**
   * While the consumer has taken only elements of the initial response,
   * counted in events: the poll request is the only request sent and the
   * elements are that response's blocks, converted, in server order.
   */
  lemma PollFirstEvents<B>(a: PollArgs, env: Env<B>, r: PollResponse, n: nat)
    requires env.send(PollDispatch(env.ids(0), a)) == Success(r)
    requires n <= |r.contentBlocks|
    ensures PollEvents(a, env, n + 1)
            == [Sent(PollDispatch(env.ids(0), a))] + YieldAll(env.convert, r.contentBlocks[..n])
  {
    InitialSegment(false, a, env, r, 0, n);
    assert r.contentBlocks[0..n] == r.contentBlocks[..n];
  }

  /** Cutting after the last of a run of yielded blocks keeps exactly those blocks. */
  lemma {:induction false} UntilYieldsBlocks<B>(convert: WireBlock -> B, blocks: seq<WireBlock>, rest: seq<Event<B>>)
    requires |blocks| > 0
    ensures UntilYields(YieldAll(convert, blocks) + rest, |blocks|) == YieldAll(convert, blocks)
    decreases |blocks|
  {
    var t := YieldAll(convert, blocks) + rest;
    assert t[0] == Yielded(convert(blocks[0]));
    assert t[1..] == YieldAll(convert, blocks[1..]) + rest;
    assert YieldAll(convert, blocks) == [t[0]] + YieldAll(convert, blocks[1..]);
    if |blocks| > 1 {
      UntilYieldsBlocks(convert, blocks[1..], rest);
    }
  }

  /**
   * Laziness, counted in elements pulled: once the consumer has pulled n
   * elements (n at most the initial block count), the poll request is the
   * only request sent, however far the generator could run, and the
   * elements are the first n initial blocks, converted, in server order.
   */
  lemma PollFirstBlocks<B>(a: PollArgs, env: Env<B>, r: PollResponse, n: nat, k: nat)
    requires env.send(PollDispatch(env.ids(0), a)) == Success(r)
    requires 1 <= n <= |r.contentBlocks|
    requires k >= n + 1
    ensures UntilYields(PollEvents(a, env, k), n)
            == [Sent(PollDispatch(env.ids(0), a))] + YieldAll(env.convert, r.contentBlocks[..n])
    ensures Requests(UntilYields(PollEvents(a, env, k), n)) == [PollDispatch(env.ids(0), a)]
    ensures Yields(UntilYields(PollEvents(a, env, k), n)) == Converted(env.convert, r.contentBlocks[..n])
  {
    var d := PollDispatch(env.ids(0), a);
    var blocks := YieldAll(env.convert, r.contentBlocks[..n]);
    PollFirstEvents(a, env, r, n);
    RunSplit(false, a, env, Unstarted, n + 1, k - (n + 1));
    var rest := PollRun(false, a, env, After(false, a, env, Unstarted, n + 1), k - (n + 1));
    var t := PollEvents(a, env, k);
    assert t == [Sent(d)] + blocks + rest;
    assert t[1..] == blocks + rest;
    UntilYieldsBlocks(env.convert, r.contentBlocks[..n], rest);
    assert UntilYields(t, n) == [Sent(d)] + blocks;
    EventsAppend([Sent(d)], blocks);
    YieldAllEvents(env.convert, r.contentBlocks[..n]);
  }

  /** Without `more` the whole output is the initial response's blocks, after one request. */
  lemma PollSinglePart<B>(a: PollArgs, env: Env<B>, r: PollResponse, k: nat)
    requires env.send(PollDispatch(env.ids(0), a)) == Success(r)
    requires !r.more
    requires k >= |r.contentBlocks| + 2
    ensures PollEvents(a, env, k)
            == [Sent(PollDispatch(env.ids(0), a))] + YieldAll(env.convert, r.contentBlocks) + [Finished]
    ensures Requests(PollEvents(a, env, k)) == [PollDispatch(env.ids(0), a)]
    ensures Yields(PollEvents(a, env, k)) == Converted(env.convert, r.contentBlocks)
  {
    var n := |r.contentBlocks|;
    var d := PollDispatch(env.ids(0), a);
    RunSplit(false, a, env, Unstarted, 1 + n, k - 1 - n);
    InitialSegment(false, a, env, r, 0, n);
    assert r.contentBlocks[0..n] == r.contentBlocks;
    assert PollRun(false, a, env, InInitial(r, n), k - 1 - n) == [Finished];
    EventsAppend([Sent(d)] + YieldAll(env.convert, r.contentBlocks), [Finished]);
    EventsAppend([Sent(d)], YieldAll(env.convert, r.contentBlocks));
    YieldAllEvents(env.convert, r.contentBlocks);
  }

  /** A failing poll request raises its error right after being sent, and nothing is yielded. */
  lemma PollFailure<B>(a: PollArgs, env: Env<B>, e: Error, k: nat)
    requires env.send(PollDispatch(env.ids(0), a)) == Failure(e)
    requires k >= 2
    ensures PollEvents(a, env, k) == [Sent(PollDispatch(env.ids(0), a)), Raised(e)]
  {
    var d := PollDispatch(env.ids(0), a);
    assert PollStep(false, a, env, Unstarted) == (Sent(d), Failing(e));
    assert PollRun(false, a, env, Failing(e), k - 1) == [Raised(e)] + PollRun(false, a, env, Exhausted, k - 2);
  }

  // ---------------------------------------------------------------------
  // The `while more` loop of the client

  /** A request for the part after the governing response, with the poll's collection and address. */
  predicate AsksForNextPart(d: Dispatch, a: PollArgs, r: PollResponse)
  {
    && d.service == Some(Poll) && d.uri == a.uri
    && d.message.PollFulfillmentRequest?
    && d.message.collectionName == a.collectionName
    && d.message.resultId == r.resultId
    && d.message.resultPartNumber == r.resultPartNumber + 1
  }

  /** Every state after the initial response, in the client's loop, is still governed by that response. */
  predicate Governed(s: PollState, r: PollResponse)
  {
    match s
    case Unstarted => false
    case InInitial(r', _) => r' == r
    case InPart(g, _, _) => g == r
    case Failing(_) => true
    case Exhausted => true
  }

  lemma StepKeepsGovernor<B>(a: PollArgs, env: Env<B>, s: PollState, r: PollResponse)
    requires Governed(s, r) && !s.Exhausted?
    ensures Governed(PollStep(false, a, env, s).1, r)
    ensures PollStep(false, a, env, s).0.Sent? ==> AsksForNextPart(PollStep(false, a, env, s).0.dispatch, a, r)
    ensures r.more ==> !PollStep(false, a, env, s).0.Finished?
    ensures r.more && PollStep(false, a, env, s).1.Exhausted? ==> PollStep(false, a, env, s).0.Raised?
  {
  }

  /** Every request among the events asks for the part after `r`. */
  predicate AllAskForNextPart<B>(t: seq<Event<B>>, a: PollArgs, r: PollResponse)
  {
    forall j :: 0 <= j < |t| && t[j].Sent? ==> AsksForNextPart(t[j].dispatch, a, r)
  }

  predicate NeverFinished<B>(t: seq<Event<B>>)
  {
    forall j :: 0 <= j < |t| ==> !t[j].Finished?
  }

  lemma {:induction false} GovernedRun<B>(a: PollArgs, env: Env<B>, s: PollState, r: PollResponse, k: nat)
    requires Governed(s, r)
    ensures AllAskForNextPart(PollRun(false, a, env, s, k), a, r)
    ensures r.more ==> NeverFinished(PollRun(false, a, env, s, k))
    ensures r.more && !s.Exhausted? ==> |PollRun(false, a, env, s, k)| == k || HasRaised(PollRun(false, a, env, s, k))
    decreases k
  {
    if k > 0 && !s.Exhausted? {
      var step := PollStep(false, a, env, s);
      var e, s' := step.0, step.1;
      StepKeepsGovernor(a, env, s, r);
      GovernedRun(a, env, s', r, k - 1);
      var t' := PollRun(false, a, env, s', k - 1);
      var t := PollRun(false, a, env, s, k);
      assert t == [e] + t';
      forall j | 0 <= j < |t| && t[j].Sent?
        ensures AsksForNextPart(t[j].dispatch, a, r)
      {
        if j > 0 {
          assert t[j] == t'[j - 1];
        }
      }
      if r.more {
        forall j | 0 <= j < |t|
          ensures !t[j].Finished?
        {
          if j > 0 {
            assert t[j] == t'[j - 1];
          }
        }
        if |t| != k {
          if s'.Exhausted? {
            assert t[0].Raised?;
          } else {
            var j :| 0 <= j < |t'| && t'[j].Raised?;
            assert t[j + 1].Raised?;
          }
        }
      }
    }
  }

  /**
   * When the initial response reports more parts, every later request is
   * the same fulfilment call: the poll's collection and address, the
   * initial result id, and part `result_part_number + 1`.
   */
  lemma PollRepeatsPart<B>(a: PollArgs, env: Env<B>, r: PollResponse, k: nat)
    requires env.send(PollDispatch(env.ids(0), a)) == Success(r)
    ensures var t := PollEvents(a, env, k);
            forall j :: 1 <= j < |t| && t[j].Sent? ==> AsksForNextPart(t[j].dispatch, a, r)
  {
    if k > 0 {
      GovernedRun(a, env, InInitial(r, 0), r, k - 1);
      var t' := PollRun(false, a, env, InInitial(r, 0), k - 1);
      var t := PollEvents(a, env, k);
      assert t == [Sent(PollDispatch(env.ids(0), a))] + t';
      forall j | 1 <= j < |t| && t[j].Sent?
        ensures AsksForNextPart(t[j].dispatch, a, r)
      {
        assert t[j] == t'[j - 1];
      }
    }
  }

  /**
   * When the initial response reports more parts, the poll never ends
   * normally: it stops only by raising an error, and otherwise produces
   * an event for every step asked of it.
   */
  lemma PollNeverFinishes<B>(a: PollArgs, env: Env<B>, r: PollResponse, k: nat)
    requires env.send(PollDispatch(env.ids(0), a)) == Success(r)
    requires r.more
    ensures NeverFinished(PollEvents(a, env, k))
    ensures |PollEvents(a, env, k)| == k || HasRaised(PollEvents(a, env, k))
  {
    if k > 0 {
      GovernedRun(a, env, InInitial(r, 0), r, k - 1);
      var t' := PollRun(false, a, env, InInitial(r, 0), k - 1);
      var t := PollEvents(a, env, k);
      assert t == [Sent(PollDispatch(env.ids(0), a))] + t';
      assert forall j :: 1 <= j < |t| ==> t[j] == t'[j - 1];
      if |t| != k {
        var j :| 0 <= j < |t'| && t'[j].Raised?;
        assert t[j + 1].Raised?;
      }
    }
  }

  // ---------------------------------------------------------------------
  // Two parts: the client's loop against the corrected loop

  /** At the end of the initial blocks, a `more` response starts the first fulfilment call. */
  lemma FirstFulfilmentStep<B>(re: bool, a: PollArgs, env: Env<B>, r1: PollResponse, r2: PollResponse)
    requires r1.more
    requires env.send(FulfilmentDispatch(env.ids(1), NextPartArgs(a, r1))) == Success(r2)
    ensures PollStep(re, a, env, InInitial(r1, |r1.contentBlocks|))
            == (Sent(FulfilmentDispatch(env.ids(1), NextPartArgs(a, r1))), InPart(r1, 1, PartBlocks(r2, 0)))
  {
  }

  /** The first fulfilment call: its request, then its blocks. */
  lemma FirstFulfilmentRun<B>(re: bool, a: PollArgs, env: Env<B>, r1: PollResponse, r2: PollResponse)
    requires r1.more
    requires env.send(FulfilmentDispatch(env.ids(1), NextPartArgs(a, r1))) == Success(r2)
    ensures PollRun(re, a, env, InInitial(r1, |r1.contentBlocks|), 1 + |r2.contentBlocks|)
            == [Sent(FulfilmentDispatch(env.ids(1), NextPartArgs(a, r1)))] + YieldAll(env.convert, r2.contentBlocks)
    ensures After(re, a, env, InInitial(r1, |r1.contentBlocks|), 1 + |r2.contentBlocks|)
            == InPart(r1, 1, PartBlocks(r2, |r2.contentBlocks|))
  {
    var n2 := |r2.contentBlocks|;
    FirstFulfilmentStep(re, a, env, r1, r2);
    PartSegment(re, a, env, r1, 1, r2, 0, n2);
    assert r2.contentBlocks[0..n2] == r2.contentBlocks;
  }

  /** Both loops agree up to the end of the first fulfilment part. */
  lemma TwoPartsPrefix<B>(re: bool, a: PollArgs, env: Env<B>, r1: PollResponse, r2: PollResponse)
    requires env.send(PollDispatch(env.ids(0), a)) == Success(r1) && r1.more
    requires env.send(FulfilmentDispatch(env.ids(1), NextPartArgs(a, r1))) == Success(r2)
    ensures var n := 2 + |r1.contentBlocks| + |r2.contentBlocks|;
            && PollRun(re, a, env, Unstarted, n)
               == [Sent(PollDispatch(env.ids(0), a))] + YieldAll(env.convert, r1.contentBlocks)
                  + [Sent(FulfilmentDispatch(env.ids(1), NextPartArgs(a, r1)))] + YieldAll(env.convert, r2.contentBlocks)
            && After(re, a, env, Unstarted, n) == InPart(r1, 1, PartBlocks(r2, |r2.contentBlocks|))
  {
    var n1, n2 := |r1.contentBlocks|, |r2.contentBlocks|;
    RunSplit(re, a, env, Unstarted, 1 + n1, 1 + n2);
    InitialSegment(re, a, env, r1, 0, n1);
    assert r1.contentBlocks[0..n1] == r1.contentBlocks;
    assert PollRun(re, a, env, Unstarted, 1 + n1) == [Sent(PollDispatch(env.ids(0), a))] + YieldAll(env.convert, r1.contentBlocks);
    assert After(re, a, env, Unstarted, 1 + n1) == InInitial(r1, n1);
    FirstFulfilmentRun(re, a, env, r1, r2);
  }

  /**
   * A failure while fetching a later part surfaces at the step that asked
   * for it: the initial blocks are yielded, the fulfilment request is
   * dispatched, its error is raised, and the poll ends there.
   */
  lemma PollPartFailure<B>(a: PollArgs, env: Env<B>, r1: PollResponse, e: Error, k: nat)
    requires env.send(PollDispatch(env.ids(0), a)) == Success(r1) && r1.more
    requires env.send(FulfilmentDispatch(env.ids(1), NextPartArgs(a, r1))) == Failure(e)
    requires k >= 3 + |r1.contentBlocks|
    ensures PollEvents(a, env, k)
            == [Sent(PollDispatch(env.ids(0), a))] + YieldAll(env.convert, r1.contentBlocks)
               + [Sent(FulfilmentDispatch(env.ids(1), NextPartArgs(a, r1))), Raised(e)]
  {
    var n1 := |r1.contentBlocks|;
    var d1 := FulfilmentDispatch(env.ids(1), NextPartArgs(a, r1));
    RunSplit(false, a, env, Unstarted, 1 + n1, k - 1 - n1);
    InitialSegment(false, a, env, r1, 0, n1);
    assert r1.contentBlocks[0..n1] == r1.contentBlocks;
    assert PollRun(false, a, env, Unstarted, 1 + n1) == [Sent(PollDispatch(env.ids(0), a))] + YieldAll(env.convert, r1.contentBlocks);
    assert After(false, a, env, Unstarted, 1 + n1) == InInitial(r1, n1);
    assert PollStep(false, a, env, InInitial(r1, n1)) == (Sent(d1), InPart(r1, 1, PartFailing(e)));
    assert PollStep(false, a, env, InPart(r1, 1, PartFailing(e))) == (Raised(e), Exhausted);
    assert PollRun(false, a, env, Exhausted, k - 3 - n1) == [];
    assert PollRun(false, a, env, InPart(r1, 1, PartFailing(e)), k - 2 - n1) == [Raised(e)];
    assert PollRun(false, a, env, InInitial(r1, n1), k - 1 - n1) == [Sent(d1), Raised(e)];
  }

  /**
   * As written: after a first fulfilment part that reports no more parts,
   * the client does not stop but asks for that same part again.
   */
  lemma PollAsksAgainAfterLastPart<B>(a: PollArgs, env: Env<B>, r1: PollResponse, r2: PollResponse)
    requires env.send(PollDispatch(env.ids(0), a)) == Success(r1) && r1.more
    requires env.send(FulfilmentDispatch(env.ids(1), NextPartArgs(a, r1))) == Success(r2)
    requires !r2.more
    ensures PollEvents(a, env, 3 + |r1.contentBlocks| + |r2.contentBlocks|)
            == [Sent(PollDispatch(env.ids(0), a))] + YieldAll(env.convert, r1.contentBlocks)
               + [Sent(FulfilmentDispatch(env.ids(1), NextPartArgs(a, r1)))] + YieldAll(env.convert, r2.contentBlocks)
               + [Sent(FulfilmentDispatch(env.ids(2), NextPartArgs(a, r1)))]
  {
    var n := 2 + |r1.contentBlocks| + |r2.contentBlocks|;
    TwoPartsPrefix(false, a, env, r1, r2);
    RunSplit(false, a, env, Unstarted, n, 1);
  }

  /**
   * Corrected: the loop follows the latest response, so a poll whose second
   * part reports no more parts yields part one's blocks, then part two's,
   * each once and in order, and ends.
   */
  lemma PollCorrectedTwoParts<B>(a: PollArgs, env: Env<B>, r1: PollResponse, r2: PollResponse, k: nat)
    requires env.send(PollDispatch(env.ids(0), a)) == Success(r1) && r1.more
    requires env.send(FulfilmentDispatch(env.ids(1), NextPartArgs(a, r1))) == Success(r2)
    requires !r2.more
    requires k >= 3 + |r1.contentBlocks| + |r2.contentBlocks|
    ensures PollEventsCorrected(a, env, k)
            == [Sent(PollDispatch(env.ids(0), a))] + YieldAll(env.convert, r1.contentBlocks)
               + [Sent(FulfilmentDispatch(env.ids(1), NextPartArgs(a, r1)))] + YieldAll(env.convert, r2.contentBlocks)
               + [Finished]
    ensures Yields(PollEventsCorrected(a, env, k)) == Converted(env.convert, r1.contentBlocks + r2.contentBlocks)
  {
    var n := 2 + |r1.contentBlocks| + |r2.contentBlocks|;
    TwoPartsPrefix(true, a, env, r1, r2);
    RunSplit(true, a, env, Unstarted, n, k - n);
    assert PollRun(true, a, env, InPart(r1, 1, PartBlocks(r2, |r2.contentBlocks|)), k - n) == [Finished];
    var d0 := PollDispatch(env.ids(0), a);
    var d1 := FulfilmentDispatch(env.ids(1), NextPartArgs(a, r1));
    var y1, y2 := YieldAll(env.convert, r1.contentBlocks), YieldAll(env.convert, r2.contentBlocks);
    EventsAppend([Sent(d0)] + y1 + [Sent(d1)] + y2, [Finished]);
    EventsAppend([Sent(d0)] + y1 + [Sent(d1)], y2);
    EventsAppend([Sent(d0)] + y1, [Sent(d1)]);
    EventsAppend([Sent(d0)], y1);
    YieldAllEvents(env.convert, r1.contentBlocks);
    YieldAllEvents(env.convert, r2.contentBlocks);
    assert Converted(env.convert, r1.contentBlocks + r2.contentBlocks)
        == Converted(env.convert, r1.contentBlocks) + Converted(env.convert, r2.contentBlocks);
  }

  // ---------------------------------------------------------------------
  // The fulfilment generator

  lemma {:induction false} PartTail<B>(f: FulfilmentArgs, id: MessageId, env: Env<B>, p: PollResponse, i: nat, k: nat)
    requires i <= |p.contentBlocks|
    requires k >= |p.contentBlocks| - i + 1
    ensures PartRun(f, id, env, PartBlocks(p, i), k) == YieldAll(env.convert, p.contentBlocks[i..]) + [Finished]
    decreases |p.contentBlocks| - i
  {
    if i < |p.contentBlocks| {
      PartTail(f, id, env, p, i + 1, k - 1);
      assert YieldAll(env.convert, p.contentBlocks[i..])
          == [Yielded(env.convert(p.contentBlocks[i]))] + YieldAll(env.convert, p.contentBlocks[i + 1..]);
    } else {
      assert PartRun(f, id, env, PartDone, k - 1) == [];
    }
  }

  /**
   * A fulfilment call sends exactly one request, yields that response's
   * blocks in order and ends, whatever the response's `more` flag says.
   */
  lemma FulfilmentSinglePart<B>(f: FulfilmentArgs, env: Env<B>, p: PollResponse, k: nat)
    requires env.send(FulfilmentDispatch(env.ids(0), f)) == Success(p)
    requires k >= |p.contentBlocks| + 2
    ensures FulfilmentEvents(f, env, k)
            == [Sent(FulfilmentDispatch(env.ids(0), f))] + YieldAll(env.convert, p.contentBlocks) + [Finished]
    ensures Requests(FulfilmentEvents(f, env, k)) == [FulfilmentDispatch(env.ids(0), f)]
    ensures Yields(FulfilmentEvents(f, env, k)) == Converted(env.convert, p.contentBlocks)
  {
    var d := FulfilmentDispatch(env.ids(0), f);
    PartTail(f, env.ids(0), env, p, 0, k - 1);
    assert p.contentBlocks[0..] == p.contentBlocks;
    EventsAppend([Sent(d)] + YieldAll(env.convert, p.contentBlocks), [Finished]);
    EventsAppend([Sent(d)], YieldAll(env.convert, p.contentBlocks));
    YieldAllEvents(env.convert, p.contentBlocks);
  }

  /** A failing fulfilment request raises its error right after being sent. */
  lemma FulfilmentFailure<B>(f: FulfilmentArgs, env: Env<B>, e: Error, k: nat)
    requires env.send(FulfilmentDispatch(env.ids(0), f)) == Failure(e)
    requires k >= 2
    ensures FulfilmentEvents(f, env, k) == [Sent(FulfilmentDispatch(env.ids(0), f)), Raised(e)]
  {
    var d := FulfilmentDispatch(env.ids(0), f);
    assert PartStep(f, env.ids(0), env, PartUnstarted) == (Sent(d), PartFailing(e));
    assert PartRun(f, env.ids(0), env, PartFailing(e), k - 1) == [Raised(e)] + PartRun(f, env.ids(0), env, PartDone, k - 2);
  }
}
