/**
 * The request-building half of the TAXII 1.1 client: each public operation
 * becomes a pure function from the caller's arguments to the request it
 * dispatches, paired with the service kind the request is routed to and the
 * caller's explicit address (if any). Identifier generation, the clock,
 * address resolution and the network are parameters.
 */
module Client11 {
  import opened Wrappers
  import opened Taxii

  /** The exceptions an exchange can raise instead of returning a response. */
  datatype Error =
    | InvalidUri
    | UnsuccessfulStatus(status: string, message: string)
    | ServiceNotFound
    | AmbiguousServices(candidates: seq<Uri>)
    | NoUriProvided
    | TransportFailure(detail: string)

  /** A request, the service kind that resolves its address, and the explicit address. */
  datatype Dispatch = Dispatch(message: Message, service: Option<ServiceKind>, uri: Option<Uri>)

  /**
   * The request's address is looked up by the service type that processes
   * its message, rather than taken only from the caller.
   */
  predicate Resolved(d: Dispatch)
  {
    d.service == Some(ServiceFor(d.message))
  }

  /** Python truthiness of an optional string or list: `None` and empty are false. */
  predicate Truthy<T>(o: Option<seq<T>>)
  {
    o.Some? && |o.value| > 0
  }

  /** The arguments of a poll call. */
  datatype PollArgs = PollArgs(
    collectionName: string,
    beginDate: Option<Timestamp>,
    endDate: Option<Timestamp>,
    countOnly: bool,
    subscriptionId: Option<string>,
    inboxService: Option<InboxService>,
    contentBindings: Option<seq<ContentBindingArg>>,
    uri: Option<Uri>)

  /** The arguments of a fulfilment call. */
  datatype FulfilmentArgs = FulfilmentArgs(collectionName: string, resultId: string, partNumber: int, uri: Option<Uri>)

  /** The part number a fulfilment call asks for when the caller gives none. */
  const DefaultPartNumber: int := 1

  /** Discovery sends a bare request to the given address, not resolved by service kind. */
  function DiscoveryDispatch(id: MessageId, uri: Option<Uri>): (d: Dispatch)
    ensures d.message.DiscoveryRequest? && d.message.messageId == id
    ensures d.uri == uri
    ensures !Resolved(d) && d.service.None?
  {
    Dispatch(DiscoveryRequest(id), None, uri)
  }

  /** The shared subscription-management request of the four status actions. */
  function SubscriptionStatusDispatch(action: Action, id: MessageId, collectionName: string,
                                      subscriptionId: Option<string>, uri: Option<Uri>): (d: Dispatch)
    ensures Resolved(d) && d.service == Some(CollectionManagement) && d.uri == uri
    ensures d.message.ManageCollectionSubscriptionRequest? && d.message.messageId == id
    ensures d.message.action == action && d.message.collectionName == collectionName
    ensures d.message.subscriptionId == subscriptionId
    ensures WellFormed(d.message) <==>
              && (action == Subscribe ==> subscriptionId.None?)
              && (action == Pause || action == Resume || action == Action.Unsubscribe ==> subscriptionId.Some?)
  {
    Dispatch(ManageCollectionSubscriptionRequest(id, action, collectionName, subscriptionId, None, None),
             Some(CollectionManagement), uri)
  }

  /** STATUS: without a subscription id the server reports every subscription of the collection. */
  function GetSubscriptionStatus(id: MessageId, collectionName: string, subscriptionId: Option<string>,
                                 uri: Option<Uri>): (d: Dispatch)
    ensures Resolved(d) && d.service == Some(CollectionManagement) && d.uri == uri
    ensures d.message.ManageCollectionSubscriptionRequest? && d.message.action == Status
    ensures d.message.messageId == id && d.message.collectionName == collectionName
    ensures d.message.subscriptionId == subscriptionId
    ensures WellFormed(d.message)
  {
    SubscriptionStatusDispatch(Status, id, collectionName, subscriptionId, uri)
  }

  function PauseSubscription(id: MessageId, collectionName: string, subscriptionId: string,
                             uri: Option<Uri>): (d: Dispatch)
    ensures Resolved(d) && d.service == Some(CollectionManagement) && d.uri == uri
    ensures d.message.ManageCollectionSubscriptionRequest? && d.message.action == Pause
    ensures d.message.messageId == id && d.message.collectionName == collectionName
    ensures d.message.subscriptionId == Some(subscriptionId)
    ensures WellFormed(d.message)
  {
    SubscriptionStatusDispatch(Pause, id, collectionName, Some(subscriptionId), uri)
  }

  function ResumeSubscription(id: MessageId, collectionName: string, subscriptionId: string,
                              uri: Option<Uri>): (d: Dispatch)
    ensures Resolved(d) && d.service == Some(CollectionManagement) && d.uri == uri
    ensures d.message.ManageCollectionSubscriptionRequest? && d.message.action == Resume
    ensures d.message.messageId == id && d.message.collectionName == collectionName
    ensures d.message.subscriptionId == Some(subscriptionId)
    ensures WellFormed(d.message)
  {
    SubscriptionStatusDispatch(Resume, id, collectionName, Some(subscriptionId), uri)
  }

  function Unsubscribe(id: MessageId, collectionName: string, subscriptionId: string,
                       uri: Option<Uri>): (d: Dispatch)
    ensures Resolved(d) && d.service == Some(CollectionManagement) && d.uri == uri
    ensures d.message.ManageCollectionSubscriptionRequest? && d.message.action == Action.Unsubscribe
    ensures d.message.messageId == id && d.message.collectionName == collectionName
    ensures d.message.subscriptionId == Some(subscriptionId)
    ensures WellFormed(d.message)
  {
    SubscriptionStatusDispatch(Action.Unsubscribe, id, collectionName, Some(subscriptionId), uri)
  }

  /**
   * SUBSCRIBE: the response type follows `countOnly`; push parameters appear
   * exactly when an inbox service is given, delivering with its first
   * message binding or the empty string.
   */
  function SubscribeDispatch(id: MessageId, collectionName: string, countOnly: bool,
                             inboxService: Option<InboxService>,
                             contentBindings: Option<seq<ContentBindingArg>>,
                             uri: Option<Uri>): (d: Dispatch)
    ensures Resolved(d) && d.service == Some(CollectionManagement) && d.uri == uri
    ensures d.message.ManageCollectionSubscriptionRequest? && d.message.action == Subscribe
    ensures d.message.messageId == id && d.message.collectionName == collectionName
    ensures WellFormed(d.message)
    ensures d.message.subscriptionParameters.Some?
    ensures d.message.subscriptionParameters.value.responseType == CountOnly <==> countOnly
    ensures d.message.subscriptionParameters.value.contentBindings == PackedBindings(contentBindings)
    ensures d.message.pushParameters.Some? <==> inboxService.Some?
    ensures inboxService.Some? ==>
              var push := d.message.pushParameters.value;
              && push.inboxProtocol == inboxService.value.protocol
              && push.inboxAddress == inboxService.value.address
              && (|inboxService.value.messageBindings| > 0 ==> push.deliveryMessageBinding == inboxService.value.messageBindings[0])
              && (|inboxService.value.messageBindings| == 0 ==> push.deliveryMessageBinding == "")
  {
    var sparams := SubscriptionParameters(if countOnly then CountOnly else Full, PackedBindings(contentBindings));
    var pparams :=
      match inboxService
      case Some(inbox) =>
        Some(PushParameters(inbox.protocol, inbox.address,
                            if |inbox.messageBindings| > 0 then inbox.messageBindings[0] else ""))
      case None => None;
    Dispatch(ManageCollectionSubscriptionRequest(id, Subscribe, collectionName, None, Some(sparams), pparams),
             Some(CollectionManagement), uri)
  }

  /** Listing collections sends a bare collection-information request to collection management. */
  function GetCollectionsDispatch(id: MessageId, uri: Option<Uri>): (d: Dispatch)
    ensures d.message.CollectionInformationRequest? && d.message.messageId == id
    ensures Resolved(d) && d.service == Some(CollectionManagement) && d.uri == uri
  {
    Dispatch(CollectionInformationRequest(id), Some(CollectionManagement), uri)
  }

  /**
   * Push: one inbox message with exactly one content block, labelled with
   * the caller's timestamp or the current time `now`. Destination names are
   * added only for a non-empty list, which leaves them empty for `None`
   * and for the empty list alike.
   */
  function PushDispatch(id: MessageId, content: string, contentBinding: ContentBindingArg,
                        collectionsNames: Option<seq<string>>, timestamp: Option<Timestamp>,
                        now: Timestamp, uri: Option<Uri>): (d: Dispatch)
    ensures Resolved(d) && d.service == Some(Inbox) && d.uri == uri
    ensures d.message.InboxMessage? && d.message.messageId == id && |d.message.contentBlocks| == 1
    ensures d.message.contentBlocks[0].content == content
    ensures d.message.contentBlocks[0].contentBinding == PackedBinding(contentBinding)
    ensures timestamp.Some? ==> d.message.contentBlocks[0].timestampLabel == timestamp.value
    ensures timestamp.None? ==> d.message.contentBlocks[0].timestampLabel == now
    ensures collectionsNames.Some? ==> d.message.destinationCollectionNames == collectionsNames.value
    ensures collectionsNames.None? ==> d.message.destinationCollectionNames == []
  {
    var block := ContentBlock(content, PackedBinding(contentBinding),
                              match timestamp case Some(t) => t case None => now);
    var destinations := if Truthy(collectionsNames) then collectionsNames.value else [];
    Dispatch(InboxMessage(id, [block], destinations), Some(Inbox), uri)
  }

  /** The poll parameters of an ad-hoc (subscription-less) poll. */
  function AdHocParameters(a: PollArgs): PollParameters
  {
    var delivery :=
      match a.inboxService
      case Some(inbox) =>
        Some(DeliveryParameters(inbox.protocol, inbox.address,
                                if |inbox.messageBindings| > 0 then MessageBinding(inbox.messageBindings[0]) else EmptyList))
      case None => None;
    PollParameters(
      PackedBindings(a.contentBindings),
      delivery,
      if a.inboxService.Some? then Some(true) else None,
      if a.countOnly then Some(CountOnly) else None)
  }

  /**
   * The initial poll request. A truthy subscription id selects subscription
   * mode: the id is sent and poll parameters are omitted. Otherwise the poll
   * parameters carry the packed content bindings, a COUNT_ONLY response type
   * only for `countOnly`, and delivery parameters with asynchronous delivery
   * allowed only when an inbox service is given.
   */
  function PollDispatch(id: MessageId, a: PollArgs): (d: Dispatch)
    ensures Resolved(d) && d.service == Some(Poll) && d.uri == a.uri
    ensures d.message.PollRequest? && d.message.messageId == id
    ensures d.message.collectionName == a.collectionName
    ensures d.message.exclusiveBeginTimestampLabel == a.beginDate
    ensures d.message.inclusiveEndTimestampLabel == a.endDate
    ensures WellFormed(d.message)
    ensures d.message.subscriptionId.Some? <==> Truthy(a.subscriptionId)
    ensures Truthy(a.subscriptionId) ==> d.message.subscriptionId == a.subscriptionId
    ensures d.message.pollParameters.Some? <==> !Truthy(a.subscriptionId)
    ensures !Truthy(a.subscriptionId) ==>
              var params := d.message.pollParameters.value;
              && params.contentBindings == PackedBindings(a.contentBindings)
              && (params.responseType == Some(CountOnly) <==> a.countOnly)
              && (params.responseType.Some? <==> a.countOnly)
              && (params.deliveryParameters.Some? <==> a.inboxService.Some?)
              && (params.allowAsynch.Some? <==> a.inboxService.Some?)
              && (params.allowAsynch.Some? ==> params.allowAsynch.value)
  {
    if Truthy(a.subscriptionId) then
      Dispatch(PollRequest(id, a.collectionName, a.beginDate, a.endDate, a.subscriptionId, None), Some(Poll), a.uri)
    else
      Dispatch(PollRequest(id, a.collectionName, a.beginDate, a.endDate, None, Some(AdHocParameters(a))), Some(Poll), a.uri)
  }

  /** In ad-hoc mode the delivery parameters name the inbox service and its first message binding, or an empty list. */
  lemma PollDeliveryParameters(id: MessageId, a: PollArgs)
    requires !Truthy(a.subscriptionId) && a.inboxService.Some?
    ensures var inbox := a.inboxService.value;
            var delivery := PollDispatch(id, a).message.pollParameters.value.deliveryParameters.value;
            && delivery.inboxProtocol == inbox.protocol
            && delivery.inboxAddress == inbox.address
            && (|inbox.messageBindings| > 0 ==> delivery.deliveryMessageBinding == MessageBinding(inbox.messageBindings[0]))
            && (|inbox.messageBindings| == 0 ==> delivery.deliveryMessageBinding == EmptyList)
  {
  }

  /** In subscription mode the ad-hoc filters have no effect on the request. */
  lemma SubscriptionModeIgnoresFilters(id: MessageId, a: PollArgs, countOnly: bool,
                                       inboxService: Option<InboxService>,
                                       contentBindings: Option<seq<ContentBindingArg>>)
    requires Truthy(a.subscriptionId)
    ensures PollDispatch(id, a.(countOnly := countOnly, inboxService := inboxService, contentBindings := contentBindings))
            == PollDispatch(id, a)
  {
  }

  /** A fulfilment request asks the poll service for one part of a known result set. */
  function FulfilmentDispatch(id: MessageId, f: FulfilmentArgs): (d: Dispatch)
    ensures Resolved(d) && d.service == Some(Poll)
    ensures d.message.PollFulfillmentRequest? && d.message.messageId == id
    ensures FulfilmentArgsOf(d) == Some(f)
  {
    Dispatch(PollFulfillmentRequest(id, f.collectionName, f.resultId, f.partNumber), Some(Poll), f.uri)
  }

  /** What a poll service reads from a fulfilment request: the call that produced it. */
  function FulfilmentArgsOf(d: Dispatch): Option<FulfilmentArgs>
  {
    match d.message
    case PollFulfillmentRequest(_, collectionName, resultId, partNumber) =>
      Some(FulfilmentArgs(collectionName, resultId, partNumber, d.uri))
    case _ => None
  }

  /** A fulfilment call that names no part asks for the first one. */
  lemma FulfilmentDefaultsToFirstPart(id: MessageId, collectionName: string, resultId: string, uri: Option<Uri>)
    ensures var d := FulfilmentDispatch(id, FulfilmentArgs(collectionName, resultId, DefaultPartNumber, uri));
            d.message.resultPartNumber == 1 && d.message.resultId == resultId
  {
  }

  /** Push treats a missing and an empty list of destination names alike. */
  lemma PushNamesNoneOrEmpty(id: MessageId, content: string, contentBinding: ContentBindingArg,
                             timestamp: Option<Timestamp>, now: Timestamp, uri: Option<Uri>)
    ensures PushDispatch(id, content, contentBinding, None, timestamp, now, uri)
            == PushDispatch(id, content, contentBinding, Some([]), timestamp, now, uri)
  {
  }

  /** Push without a timestamp labels the block with the current time, as if that time were given. */
  lemma PushTimestampDefaultsToNow(id: MessageId, content: string, contentBinding: ContentBindingArg,
                                   collectionsNames: Option<seq<string>>, now: Timestamp, later: Timestamp,
                                   uri: Option<Uri>)
    ensures PushDispatch(id, content, contentBinding, collectionsNames, None, now, uri)
            == PushDispatch(id, content, contentBinding, collectionsNames, Some(now), later, uri)
  {
  }

  /**
   * One exchange followed by the conversion of its response: the converted
   * response on success, the raised error verbatim and nothing converted
   * otherwise.
   */
  function Exchange<R, T>(d: Dispatch, send: Dispatch -> Result<R, Error>, convert: R -> T): Result<T, Error>
  {
    match send(d)
    case Success(response) => Success(convert(response))
    case Failure(e) => Failure(e)
  }

  /** A failed exchange converts nothing: its result is the same whatever the converter. */
  lemma ExchangeFailureIgnoresConverter<R, T>(d: Dispatch, send: Dispatch -> Result<R, Error>,
                                              convert: R -> T, convert': R -> T)
    requires send(d).Failure?
    ensures Exchange(d, send, convert) == Exchange(d, send, convert') == Failure(send(d).error)
  {
  }
}
