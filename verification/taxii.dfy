/**
 * The TAXII 1.1 message shapes the client builds and reads, as plain values.
 * The message classes of the protocol library are represented by one
 * constructor each, holding exactly the fields the client sets; a field
 * the client leaves at the library's default is `None`.
 */
module Taxii {
  import opened Wrappers

  type MessageId = string
  type Uri = string

  /** A timestamp label; its representation does not matter to the client. */
  type Timestamp = string

  /** The service types a request is routed to. */
  datatype ServiceKind = Discovery | CollectionManagement | Poll | Inbox

  /** Actions of a collection-subscription management request. */
  datatype Action = Subscribe | Unsubscribe | Pause | Resume | Status

  /** Response types of poll and subscription parameters. */
  datatype ResponseType = Full | CountOnly

  /** A content binding as a caller passes it: a plain id or a binding entity. */
  datatype ContentBindingArg = BindingId(id: string) | BindingEntity(id: string, subtypes: seq<string>)

  /**
   * The packing helpers that turn caller bindings into protocol bindings are
   * not part of this model; their results are kept symbolic, as the
   * argument they were applied to.
   */
  datatype PackedBinding = PackedBinding(source: ContentBindingArg)
  datatype PackedBindings = PackedBindings(source: Option<seq<ContentBindingArg>>)

  /** An inbox service entity: where the server should push content. */
  datatype InboxService = InboxService(protocol: string, address: Uri, messageBindings: seq<string>)

  /**
   * The delivery message binding of poll delivery parameters. When the inbox
   * service lists no message binding the client passes an empty list, not
   * an empty string.
   */
  datatype DeliveryBinding = MessageBinding(id: string) | EmptyList

  datatype DeliveryParameters = DeliveryParameters(inboxProtocol: string, inboxAddress: Uri, deliveryMessageBinding: DeliveryBinding)

  datatype PushParameters = PushParameters(inboxProtocol: string, inboxAddress: Uri, deliveryMessageBinding: string)

  datatype SubscriptionParameters = SubscriptionParameters(responseType: ResponseType, contentBindings: PackedBindings)

  datatype PollParameters = PollParameters(
    contentBindings: PackedBindings,
    deliveryParameters: Option<DeliveryParameters>,
    allowAsynch: Option<bool>,
    responseType: Option<ResponseType>)

  /** A content block the client sends in an inbox message. */
  datatype ContentBlock = ContentBlock(content: string, contentBinding: PackedBinding, timestampLabel: Timestamp)

  /** A content block as it arrives in a poll response, before conversion. */
  datatype WireBlock = WireBlock(content: string, contentBinding: string, timestampLabel: Option<Timestamp>)

  /** The request messages. */
  datatype Message =
    | DiscoveryRequest(messageId: MessageId)
    | ManageCollectionSubscriptionRequest(
        messageId: MessageId,
        action: Action,
        collectionName: string,
        subscriptionId: Option<string>,
        subscriptionParameters: Option<SubscriptionParameters>,
        pushParameters: Option<PushParameters>)
    | CollectionInformationRequest(messageId: MessageId)
    | InboxMessage(messageId: MessageId, contentBlocks: seq<ContentBlock>, destinationCollectionNames: seq<string>)
    | PollRequest(
        messageId: MessageId,
        collectionName: string,
        exclusiveBeginTimestampLabel: Option<Timestamp>,
        inclusiveEndTimestampLabel: Option<Timestamp>,
        subscriptionId: Option<string>,
        pollParameters: Option<PollParameters>)
    | PollFulfillmentRequest(messageId: MessageId, collectionName: string, resultId: string, resultPartNumber: int)

  /** The part of a poll (or fulfilment) response the pagination reads. */
  datatype PollResponse = PollResponse(resultId: string, resultPartNumber: int, more: bool, contentBlocks: seq<WireBlock>)

  /**
   * Field-presence rules of TAXII 1.1 requests: a subscribe request names no
   * subscription yet, pause, resume and unsubscribe name one, only a
   * subscribe request carries subscription or push parameters, and a poll
   * request carries exactly one of a subscription id and poll parameters.
   */
  predicate WellFormed(m: Message)
  {
    match m
    case ManageCollectionSubscriptionRequest(_, action, _, sid, sparams, pparams) =>
      && (action == Subscribe ==> sid.None?)
      && (action == Pause || action == Resume || action == Unsubscribe ==> sid.Some?)
      && (action != Subscribe ==> sparams.None? && pparams.None?)
    case PollRequest(_, _, _, _, sid, params) =>
      sid.Some? != params.Some?
    case _ => true
  }

  /**
   * The TAXII 1.1 service that processes each request type: discovery
   * requests go to a discovery service, subscription management and
   * collection information to collection management, inbox messages to an
   * inbox, and poll and fulfilment requests to a poll service.
   */
  function ServiceFor(m: Message): ServiceKind
  {
    match m
    case DiscoveryRequest(_) => Discovery
    case ManageCollectionSubscriptionRequest(_, _, _, _, _, _) => CollectionManagement
    case CollectionInformationRequest(_) => CollectionManagement
    case InboxMessage(_, _, _) => Inbox
    case PollRequest(_, _, _, _, _, _) => Poll
    case PollFulfillmentRequest(_, _, _, _) => Poll
  }
}
