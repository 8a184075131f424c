/**
 * The poll and fulfilment generators as explicit state machines.
 *
 * A generator's execution is a stream of events: a request dispatched, a block
 * yielded to the consumer, an error raised, or normal termination. Both
 * generators do nothing until the consumer asks for an element, so the
 * events a consumer has caused after taking n elements are a prefix of
 * that stream; `PollEvents(a, env, k)` is its first k events. The transport
 * (address resolution, the exchange and status validation together) is an
 * oracle from dispatched request to response, the k-th request of one
 * generator carries the k-th identifier of `env.ids`, and every received
 * block passes through the converter `env.convert`.
 */
module Pagination {
  import opened Wrappers
  import opened Taxii
  import opened Client11

  /**
   * `Sent` marks a request handed to the exchange. The exchange resolves
   * its address first and may raise before anything reaches the network.
   */
  datatype Event<B> = Sent(dispatch: Dispatch) | Yielded(block: B) | Raised(error: Error) | Finished
  {
    /** An event after which the generator produces nothing more. */
    predicate Terminal()
    {
      Raised? || Finished?
    }
  }

  /** Only the last of the events may end the generator. */
  predicate EndsOnlyAtLast<B>(t: seq<Event<B>>)
  {
    forall j :: 0 <= j < |t| - 1 ==> !t[j].Terminal()
  }

  /** The collaborators of a generator. */
  datatype Env<B> = Env(send: Dispatch -> Result<PollResponse, Error>, ids: nat -> MessageId, convert: WireBlock -> B)

  /** The events that yield the given blocks, in order. */
  function YieldAll<B>(convert: WireBlock -> B, blocks: seq<WireBlock>): seq<Event<B>>
  {
    seq(|blocks|, j requires 0 <= j < |blocks| => Yielded(convert(blocks[j])))
  }

  /** The converted blocks, in order. */
  function Converted<B>(convert: WireBlock -> B, blocks: seq<WireBlock>): seq<B>
  {
    seq(|blocks|, j requires 0 <= j < |blocks| => convert(blocks[j]))
  }

  /** The elements a consumer has received during the given events. */
  function Yields<B>(t: seq<Event<B>>): seq<B>
  {
    if |t| == 0 then []
    else (if t[0].Yielded? then [t[0].block] else []) + Yields(t[1..])
  }

  /** The requests dispatched during the given events. */
  function Requests<B>(t: seq<Event<B>>): seq<Dispatch>
  {
    if |t| == 0 then []
    else (if t[0].Sent? then [t[0].dispatch] else []) + Requests(t[1..])
  }

  /**
   * The events a consumer has caused once it has pulled n elements: up to
   * and including the n-th yielded element, or all of them when the
   * generator ended before that.
   */
  function UntilYields<B>(t: seq<Event<B>>, n: nat): seq<Event<B>>
    decreases |t|
  {
    if n == 0 || |t| == 0 then []
    else [t[0]] + UntilYields(t[1..], if t[0].Yielded? then n - 1 else n)
  }

  predicate HasRaised<B>(t: seq<Event<B>>)
  {
    exists j :: 0 <= j < |t| && t[j].Raised?
  }

  // ---------------------------------------------------------------------
  // The fulfilment generator

  /** A fulfilment generator between two events. */
  datatype PartState = PartUnstarted | PartBlocks(response: PollResponse, next: nat) | PartFailing(error: Error) | PartDone

  /** The next event of a fulfilment generator and the state after it. */
  function PartStep<B>(f: FulfilmentArgs, id: MessageId, env: Env<B>, s: PartState): (r: (Event<B>, PartState))
    requires !s.PartDone?
    ensures r.0.Terminal() ==> r.1.PartDone?
    ensures r.0.Finished? ==> PartFinished(s)
  {
    match s
    case PartUnstarted =>
      var d := FulfilmentDispatch(id, f);
      (Sent(d), match env.send(d) case Success(p) => PartBlocks(p, 0) case Failure(e) => PartFailing(e))
    case PartBlocks(p, i) =>
      if i < |p.contentBlocks| then (Yielded(env.convert(p.contentBlocks[i])), PartBlocks(p, i + 1))
      else (Finished, PartDone)
    case PartFailing(e) => (Raised(e), PartDone)
  }

  /** A fulfilment generator's next step would end it normally. */
  predicate PartFinished(s: PartState)
  {
    s.PartDone? || (s.PartBlocks? && s.next >= |s.response.contentBlocks|)
  }

  function PartRun<B>(f: FulfilmentArgs, id: MessageId, env: Env<B>, s: PartState, k: nat): (t: seq<Event<B>>)
    ensures |t| <= k
    ensures EndsOnlyAtLast(t)
    decreases k
  {
    if k == 0 || s.PartDone? then []
    else
      var (e, s') := PartStep(f, id, env, s);
      [e] + PartRun(f, id, env, s', k - 1)
  }

  /** The first k events of a standalone fulfilment call. */
  function FulfilmentEvents<B>(f: FulfilmentArgs, env: Env<B>, k: nat): (t: seq<Event<B>>)
    ensures |t| <= k && EndsOnlyAtLast(t)
    ensures k > 0 ==> |t| > 0 && t[0] == Sent(FulfilmentDispatch(env.ids(0), f))
  {
    PartRun(f, env.ids(0), env, PartUnstarted, k)
  }

  // ---------------------------------------------------------------------
  // The poll generator

  /**
   * A poll generator between two events. While it works through a
   * fulfilment part it remembers the response whose `more` flag started
   * that part (`governing`), how many fulfilment calls it has made, and
   * the state of the nested fulfilment generator.
   */
  datatype PollState =
    | Unstarted
    | InInitial(initial: PollResponse, next: nat)
    | InPart(governing: PollResponse, parts: nat, inner: PartState)
    | Failing(error: Error)
    | Exhausted

  /** The fulfilment call made after the governing response: same collection and address, its result id, the next part. */
  function NextPartArgs(a: PollArgs, g: PollResponse): FulfilmentArgs
  {
    FulfilmentArgs(a.collectionName, g.resultId, g.resultPartNumber + 1, a.uri)
  }

  /** The head of the `while more` loop: start the next fulfilment call and take its first step, or end. */
  function Continue<B>(a: PollArgs, env: Env<B>, g: PollResponse, parts: nat): (Event<B>, PollState)
  {
    if g.more then
      var (e, inner) := PartStep(NextPartArgs(a, g), env.ids(parts + 1), env, PartUnstarted);
      (e, InPart(g, parts + 1, inner))
    else
      (Finished, Exhausted)
  }

  /**
   * The next event of a poll generator and the state after it. With
   * `reassign` false the loop keeps testing the initial response, as the
   * client does; with `reassign` true every part's response governs the
   * loop from then on.
   */
  function PollStep<B>(reassign: bool, a: PollArgs, env: Env<B>, s: PollState): (r: (Event<B>, PollState))
    requires !s.Exhausted?
    ensures r.0.Terminal() ==> r.1.Exhausted?
  {
    match s
    case Unstarted =>
      var d := PollDispatch(env.ids(0), a);
      (Sent(d), match env.send(d) case Success(r) => InInitial(r, 0) case Failure(e) => Failing(e))
    case InInitial(r, i) =>
      if i < |r.contentBlocks| then (Yielded(env.convert(r.contentBlocks[i])), InInitial(r, i + 1))
      else Continue(a, env, r, 0)
    case InPart(g, k, inner) =>
      if PartFinished(inner) then
        Continue(a, env, if reassign && inner.PartBlocks? then inner.response else g, k)
      else
        var (e, inner') := PartStep(NextPartArgs(a, g), env.ids(k), env, inner);
        (e, if e.Raised? then Exhausted else InPart(g, k, inner'))
    case Failing(e) => (Raised(e), Exhausted)
  }

  function PollRun<B>(reassign: bool, a: PollArgs, env: Env<B>, s: PollState, k: nat): (t: seq<Event<B>>)
    ensures |t| <= k
    ensures EndsOnlyAtLast(t)
    decreases k
  {
    if k == 0 || s.Exhausted? then []
    else
      var (e, s') := PollStep(reassign, a, env, s);
      [e] + PollRun(reassign, a, env, s', k - 1)
  }

  /** The state after (at most) k events. */
  function After<B>(reassign: bool, a: PollArgs, env: Env<B>, s: PollState, k: nat): PollState
    decreases k
  {
    if k == 0 || s.Exhausted? then s
    else After(reassign, a, env, PollStep(reassign, a, env, s).1, k - 1)
  }

  /** The first k events of a poll call, as the client behaves. */
  function PollEvents<B>(a: PollArgs, env: Env<B>, k: nat): (t: seq<Event<B>>)
    ensures |t| <= k && EndsOnlyAtLast(t)
    ensures k > 0 ==> |t| > 0 && t[0] == Sent(PollDispatch(env.ids(0), a))
  {
    PollRun(false, a, env, Unstarted, k)
  }

  /** The first k events of a poll call whose loop follows the latest response. */
  function PollEventsCorrected<B>(a: PollArgs, env: Env<B>, k: nat): (t: seq<Event<B>>)
    ensures |t| <= k && EndsOnlyAtLast(t)
    ensures k > 0 ==> |t| > 0 && t[0] == Sent(PollDispatch(env.ids(0), a))
  {
    PollRun(true, a, env, Unstarted, k)
  }
}
