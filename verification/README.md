# TAXII 1.1 client core: request construction and poll pagination

This project models the core of cabby's TAXII 1.1 client (`Client11`). There are two parts.

**Request construction.** Every public operation becomes a pure function from the caller's arguments to a `Dispatch`. A `Dispatch` holds three things:
- the protocol message;
- the service kind used to resolve the address when none is given;
- the caller's explicit address.

The operations are discovery, the four subscription actions, subscribe, collection listing, push, poll and fulfilment.

**Poll and fulfilment generators.** Both are explicit state machines. Their execution is a stream of events:
- a request dispatched, that is handed to the exchange (which resolves its address first and may raise before anything reaches the network);
- an element yielded;
- an error raised;
- normal end.

The first `k` events are what a consumer has caused after pulling elements. Pulling nothing sends nothing. Transport, address resolution and status validation together form one oracle from request to result. Identifiers come from an id source indexed by request number. Received blocks pass through an uninterpreted converter.

Modules:
- `Wrappers`: Option and Result.
- `Taxii`: the TAXII 1.1 message shapes, as the client fills them. `WellFormed` gives the field-presence rules the requests obey. `ServiceFor` is the routing table from message type to the service type that processes it.
- `Client11`: the request builders, the error kinds and one generic exchange. `Resolved(d)` says a request's address is looked up by the service type `ServiceFor` gives for its message.
- `Pagination`: the fulfilment and poll generators. `PollEvents` is the client's loop. `PollEventsCorrected` is the loop that follows the latest response.
- `PaginationProperties`: what the generators produce.

Python truthiness:
- An optional string or list counts as true when it is present and non-empty. This is `Client11.Truthy`.
- An inbox-service entity or a timestamp counts as true whenever it is present.

## Model

| member | source | states |
|---|---|---|
| Client11.DiscoveryDispatch | cabby/client11.py:25-28 | discovery passes only the address: a discovery request with the fresh id, sent to the caller's address, and the only request not resolved by service type |
| Client11.SubscriptionStatusDispatch | cabby/client11.py:30-41 | the shared request carries the id, action, collection name and subscription id as given, and is resolved as collection management; it is well-formed exactly when the action and id agree (no id for SUBSCRIBE, an id for PAUSE, RESUME and UNSUBSCRIBE) |
| Client11.GetSubscriptionStatus | cabby/client11.py:45-77 | STATUS for the caller's collection with the fresh id, subscription id passed through as given (absent asks for all subscriptions), resolved as collection management, well-formed |
| Client11.PauseSubscription | cabby/client11.py:80-109 | PAUSE of the subscription identified by the caller's collection name and subscription id, with the fresh id, resolved as collection management, well-formed |
| Client11.ResumeSubscription | cabby/client11.py:112-141 | RESUME of the subscription identified by the caller's collection name and subscription id, with the fresh id, resolved as collection management, well-formed |
| Client11.Unsubscribe | cabby/client11.py:144-173 | UNSUBSCRIBE of the subscription identified by the caller's collection name and subscription id, with the fresh id, resolved as collection management, well-formed |
| Client11.SubscribeDispatch | cabby/client11.py:209-228 | SUBSCRIBE for the caller's collection with the fresh id and no subscription id; response type is COUNT_ONLY exactly when count_only; push parameters present exactly when an inbox service is given, with its protocol, address and first message binding or the empty string; well-formed |
| Client11.GetCollectionsDispatch | cabby/client11.py:256-258 | a collection-information request with the fresh id, resolved by its message type as collection management |
| Client11.PushDispatch | cabby/client11.py:292-304 | one inbox message with the fresh id and exactly one content block (the content, its packed binding, the caller's timestamp or now), resolved as inbox; destination names are the given list, and empty when none is given |
| Client11.PushNamesNoneOrEmpty | cabby/client11.py:301-302 | push builds the same message for a missing and an empty list of destination names |
| Client11.PushTimestampDefaultsToNow | cabby/client11.py:295 | push without a timestamp builds the same message as push given the current time as its timestamp |
| Client11.PollDispatch | cabby/client11.py:343-374 | resolved as poll; a truthy subscription id is sent and poll parameters are omitted, otherwise poll parameters carry the packed bindings, COUNT_ONLY only when count_only, and delivery parameters and allow_asynch=true only with an inbox service; exactly one of the two is present |
| Client11.PollDeliveryParameters | cabby/client11.py:357-366 | ad-hoc delivery parameters carry the inbox service's protocol, address and first message binding, or an empty list when it has none |
| Client11.SubscriptionModeIgnoresFilters | cabby/client11.py:350-371 | with a truthy subscription id, changing count_only, inbox_service or content_bindings leaves the request unchanged |
| Client11.FulfilmentDispatch | cabby/client11.py:409-416 | a fulfilment request with the fresh id, resolved by its message type as poll, from which the collection, result id, part number and address of the call read back unchanged |
| Client11.FulfilmentDefaultsToFirstPart | cabby/client11.py:386 | a fulfilment call that names no part asks for part 1 |
| Client11.ExchangeFailureIgnoresConverter | cabby/client11.py:39-43 | a failed exchange converts nothing: the operation's result is the raised error whatever the converter |
| Pagination.PollEvents | cabby/client11.py:373-383 | the poll generator as written: its first event is always the poll request, it produces at most one event per step, and an error or the normal end can only be its last event |
| Pagination.PollEventsCorrected | cabby/client11.py:379-383 | the poll generator with the loop following the latest response: same first event and the same ending discipline |
| Pagination.FulfilmentEvents | cabby/client11.py:409-419 | the fulfilment generator: its first event is always its one request, and an error or the normal end can only be its last event |
| PaginationProperties.PollEventsGrow | cabby/client11.py:376-383 | pulling further never retracts events or elements already produced, so elements yielded before an error stay valid |
| PaginationProperties.PollFirstEvents | cabby/client11.py:373-377 | the first n + 1 events, for n up to the initial block count, are the poll request followed by the first n initial blocks, converted, in server order |
| PaginationProperties.PollFirstBlocks | cabby/client11.py:373-377 | once the consumer has pulled n initial elements, however far the generator could run, the poll request is the only request dispatched and the elements are the first n initial blocks, converted, in server order |
| PaginationProperties.PollSinglePart | cabby/client11.py:374-379 | without `more`, the whole run is one poll request, the converted initial blocks in order, then the end |
| PaginationProperties.PollFailure | cabby/client11.py:374 | a failing poll exchange raises its error right after the request is dispatched, and nothing is yielded |
| PaginationProperties.PollPartFailure | cabby/client11.py:379-383 | when the first fulfilment exchange fails, the poll raises that error right after dispatching it, once the initial blocks have been yielded, and ends there |
| PaginationProperties.PollRepeatsPart | cabby/client11.py:379-383 | every request after the poll is a fulfilment with the poll's collection and address, the initial result id and part result_part_number + 1 |
| PaginationProperties.PollNeverFinishes | cabby/client11.py:379-383 | if the initial response has `more`, the poll never ends normally: it stops only by raising, otherwise every step produces an event |
| PaginationProperties.PollAsksAgainAfterLastPart | cabby/client11.py:379-383 | after a fulfilment part that reports no more parts, the client asks for that same part again instead of ending |
| PaginationProperties.PollCorrectedTwoParts | cabby/client11.py:379-383 | with the loop following the latest response, a two-part result yields part one's blocks then part two's, each once, in order, and ends |
| PaginationProperties.FulfilmentSinglePart | cabby/client11.py:409-419 | a fulfilment call sends exactly one request, yields that response's converted blocks in order and ends, whatever its `more` flag says |
| PaginationProperties.FulfilmentFailure | cabby/client11.py:416 | a failing fulfilment exchange raises its error right after the request is dispatched |

## Left out

- Address resolution, identifier generation and request execution live in `cabby/abstract.py`, which is not part of this model. The model does not check URIs. It does not validate status messages itself. It does not discover services or detect ambiguous ones. Together these are the transport oracle, which returns either a response or an `Error`. Identifiers are parameters, and nothing is claimed about their uniqueness.
- The entity converters and packing helpers live in `cabby/converters.py` and `cabby/utils.py`, which are not part of this model:
  - Packed bindings are kept symbolic, as the argument they were applied to (`PackedBinding`, `PackedBindings`).
  - Block conversion is a function parameter. It cannot fail in the model, so a conversion error in the middle of a poll is not modelled.
  - Subscription and collection responses pass through the converter parameter of `Client11.Exchange`.
- The clock is the parameter `now` of `Client11.PushDispatch`.
- The protocol library's message classes and wire serialisation are replaced by plain datatypes. A field the client does not set is `None`; the library's default value for it is not modelled.
- Client11.PauseSubscription, Client11.ResumeSubscription and Client11.Unsubscribe take the subscription id as a required string, as their signatures do. A Python caller could still pass `None` explicitly; that call is not modelled.
- A dispatched request is one handed to the exchange. The model does not say whether it reached the network, because address resolution can raise first.
- Network I/O and logging are left out. Only the ordering and laziness of Python generators are modelled.
- Poll delivery parameters fall back to an empty list when the inbox service has no message binding. The subscribe push parameters fall back to an empty string. Both are modelled as written. Whether the protocol library accepts the list cannot be decided without that library.

## Findings

| source | as written | input that shows it | evidently intended | confidence | as-written member | corrected member |
|---|---|---|---|---|---|---|
| cabby/client11.py:379-383 | the `while response.more` loop keeps testing the initial poll response and never reassigns `response`, so it requests part `result_part_number + 1` forever | initial poll response with `more` true and part 1; fulfilment of part 2 answers with `more` false; the client then requests part 2 again instead of ending | follow the latest response: request the next part only while the last response reports more parts, so the output is part 1's blocks then part 2's, once each | high; not executed | PaginationProperties.PollAsksAgainAfterLastPart | PaginationProperties.PollCorrectedTwoParts |

The client's loop, as written, is `Pagination.PollEvents`. The corrected loop is `Pagination.PollEventsCorrected`. Both come from the same step function, and a flag chooses which response governs the loop.
