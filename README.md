# Live bidding platform — verified model of the bidding core

This project models, in Dafny, the bid-acceptance rule of a live auction
platform and the small rules around it:

- the item record and its creation defaults (`item.model.js`);
- the item service over a keyed store of items: create, get, update,
  delete, and `placeBid` with its atomic conditional raise (`item.service.js`);
- the consequences of running many `placeBid` calls one after another:
  the standing bid ends at the highest timely offer in any order of arrival,
  and accepted amounts for one item strictly increase;
- the Socket.IO layer: the handshake gate, the `BID_PLACED` handler and the
  events it emits (broadcast, acknowledgement, error), disconnect, and the
  `initSocket`/`getIo` singleton (`socket.js`);
- the client: the dashboard's `UPDATE_BID` reducer and item prepend, the
  item card's winning/outbid/countdown/next-bid/disabled rules, the clock
  offset estimate and the token-to-socket rule;
- the username de-duplication loop of `createUser`.

Layout: `common.dfy` (Option, Result, JavaScript truthiness),
`decimal.dfy` (number-to-string, `padStart`, a digit parser for round
trips), then one file per source file: `item_model.dfy`,
`item_service.dfy`, `socket.dfy`, `dashboard.dfy`, `item_card.dfy`,
`socket_context.dfy`, `user_service.dfy`; `bid_history.dfy` holds the
lemmas about sequences of bids.

Representation choices: ids are strings (so that JavaScript's falsy `""`
can be stated); money and times are integers (times in milliseconds);
the clock offset is a `real` because the latency is halved; `null` and
`undefined` are `None`. The server clock, `Math.random`, token
verification and the database's id generation are parameters.

Stateful parts are classes: `ItemStore` holds the item collection as a
`map` and updates it in place; `SocketModule` holds the module-level `io`;
`UserDirectory` and `UserBody` hold the stored usernames and the mutated
request body. Each store operation is proved equal to a pure outcome
function (`BidOutcome`, `UpdateOutcome`, …), whose contract carries the
properties.

Points where the code does something other than what a strict-increase
auction would be expected to do; the model follows the code:

- A bid is refused as late only when the clock is strictly past
  `auctionEndTime`; a bid at exactly the end time is judged on its amount,
  where an auction that closes at its end time would refuse it.
- `currentBid` defaults to 0, not to `startingPrice`, and no rule enforces
  the starting price: on an item created without `currentBid`, the first
  bid of any positive amount is accepted. The creation body is passed to
  `Item.create` as it is (src/controllers/item.controller.js:6), so a
  creator may also set `currentBid` and `currentBidder` themselves;
  `ItemModel.NewItem` models that.
- `updateItemById` writes `currentBid` without the conditional raise, so it
  can lower a bid, where every other write raises it strictly. No route
  calls it.
- There is no transient-failure error kind; a failed conditional update is
  always reported as "Bid must be higher than current bid".

## Model

| member | source | states |
|---|---|---|
| `ItemModel.Trim` | src/models/item.model.js:5-9 | the stored title is an infix of the given one with only spaces removed on either side, and neither starts nor ends with a space |
| `ItemModel.TrimIdempotent` | src/models/item.model.js:8 | trimming a stored title again leaves it unchanged |
| `ItemModel.MissingFields` | src/models/item.model.js:5-26 | a body fails `required` on title (missing or empty after trimming), startingPrice or auctionEndTime exactly when that path is absent |
| `ItemModel.NewItem` | src/models/item.model.js:3-28 | creation fails iff a required path is missing, reporting every missing one; otherwise title is trimmed and non-empty, currentBid defaults to 0 and currentBidder to null |
| `ItemModel.NewItemDefaults` | src/models/item.model.js:14-22 | an item created with only its required fields has bid 0 and no bidder, whatever its starting price |
| `ItemService.Message` | src/services/item.service.js:56-81 | `placeBid`'s failures carry the service's exact messages "Item not found", "Auction has ended" and "Bid must be higher than current bid"; every failure kind has its own text, so the text identifies the kind |
| `ItemService.Lookup` | src/services/item.service.js:29-31 | `findById` finds an item iff its id is a key, and returns the stored record |
| `ItemService.ConditionalRaise` | src/services/item.service.js:68-72 | the atomic update succeeds iff the item exists and its bid is strictly below the amount; it then sets bid and bidder together and returns the new record, otherwise the store is unchanged |
| `ItemService.BidOutcome` | src/services/item.service.js:56-81 | placeBid fails "Item not found" iff the id is absent, "Auction has ended" iff now is strictly after the end, "Bid must be higher" iff the amount does not exceed the bid (ties refused); every failure leaves the store unchanged; success sets bid and bidder together, keeps title, starting price and end time, returns the stored record; no bid decreases and every other item is untouched |
| `ItemService.TiesRejected` | src/services/item.service.js:68-78 | offering exactly the standing bid before the end is refused as too low and changes nothing |
| `ItemService.BidAtEndTimeIsOpen` | src/services/item.service.js:62-64 | a higher bid placed at exactly the end time is accepted |
| `ItemService.Assign` | src/services/item.service.js:44 | each path present in the update body overwrites the stored value (title through trim); absent paths keep theirs |
| `ItemService.UpdateOutcome` | src/services/item.service.js:39-47 | update fails "Item not found" iff the id is absent, fails validation iff the merged title is empty (store unchanged), otherwise stores and returns the merged record |
| `ItemService.UpdateCanLowerBid` | src/services/item.service.js:44-45 | the update path can set currentBid below its stored value: it performs no monotonicity check |
| `ItemService.DeleteOutcome` | src/services/item.service.js:87-94 | delete fails "Item not found" iff the id is absent; otherwise removes exactly that key, keeps every other entry and returns the item's last state |
| `ItemService.CreateOutcome` | src/services/item.service.js:9-11 | create stores the new record under the database id iff the body validates and the id is free; defaults apply; failures leave the store unchanged |
| `ItemService.ItemStore.CreateItem` | src/services/item.service.js:9-11 | the store and result after `createItem` are those of `CreateOutcome` |
| `ItemService.ItemStore.GetItemById` | src/services/item.service.js:29-31 | returns the stored item iff the id is a key |
| `ItemService.ItemStore.FindOneAndUpdate` | src/services/item.service.js:68-72 | the in-place conditional update leaves the store as `ConditionalRaise` does |
| `ItemService.ItemStore.PlaceBid` | src/services/item.service.js:56-81 | lookup, clock check and conditional update in place leave the store and result of `BidOutcome` |
| `ItemService.ItemStore.UpdateItemById` | src/services/item.service.js:39-47 | the store and result after the update are those of `UpdateOutcome` |
| `ItemService.ItemStore.DeleteItemById` | src/services/item.service.js:87-94 | the store and result after the delete are those of `DeleteOutcome` |
| `BidHistory.Run` | src/services/item.service.js:56-81 | placing bids one after another keeps the set of items, never lowers a bid and never changes title, starting price or end time |
| `BidHistory.FinalBidIsHighest` | src/services/item.service.js:62-72 | after any sequence of bids an item's bid is the largest of its initial bid and the amounts offered for it by its end time |
| `BidHistory.FinalBidderMadeFinalBid` | src/services/item.service.js:69-70 | the final bidder is the initial one with the initial bid, or the author of an accepted timely bid of exactly the final amount |
| `BidHistory.AcceptedBelowStanding` | src/services/item.service.js:69-80 | every accepted bid returned its own amount and stays at or below its item's standing bid |
| `BidHistory.AcceptedBidsIncrease` | src/services/item.service.js:69 | for one item, accepted amounts strictly increase in order of application |
| `BidHistory.HighestMonotone` | src/services/item.service.js:69 | the highest timely offer depends only on which bids were made, not on their order |
| `BidHistory.FinalBidOrderIndependent` | src/services/item.service.js:66-72 | the same bids arriving in any order leave every item at the same final bid |
| `BidHistory.TieScenario` | src/services/item.service.js:68-78 | from 0: A 100 accepted, B 100 refused, B 150 accepted, A 120 refused; B holds 150 |
| `Socket.Admit` | src/socket.js:16-30 | a connection is admitted iff the handshake has an auth object with a truthy token that verifies, as the token's subject; otherwise it is refused with "Authentication error" |
| `Socket.NoTokenNoConnection` | src/socket.js:17-28 | a missing auth object, a missing token or an empty token is refused whatever the verifier |
| `Socket.ServiceCall` | src/socket.js:37-45 | the service receives the payload's item id and amount and the session's subject as bidder; a missing item id fails as an unknown item |
| `Socket.HandleBidPlaced` | src/socket.js:35-64 | on acceptance the store is updated and exactly two events go out, the `UPDATE_BID` broadcast and then the sender's `BID_SUCCESS`; on failure the store is unchanged and only the sender gets an error with the failure's message |
| `Socket.BroadcastMatchesStore` | src/socket.js:49-53 | a broadcast is only the first event, names the session's subject as bidder and agrees with the stored bid and bidder |
| `Socket.OnMessage` | src/socket.js:35-68 | a disconnect changes no item and emits nothing; a bid is handled by `HandleBidPlaced` |
| `Socket.Serve` | src/socket.js:16-68 | a refused connection changes nothing and emits nothing; no connection adds or removes items |
| `Socket.ServeIsBidHistory` | src/socket.js:35-64 | an admitted connection leaves the store as the service would after the session's bids in order, with the session as bidder |
| `Socket.OnBidPlaced` | src/socket.js:35-64 | the handler run against the item store in place emits and stores what `HandleBidPlaced` says |
| `Socket.SocketModule.InitSocket` | src/socket.js:9-10 | `initSocket` stores the server it builds in `io` and returns it |
| `Socket.SocketModule.GetIo` | src/socket.js:74-79 | `getIo` throws "Socket.io not initialized!" iff `io` is unset, and otherwise returns it |
| `Socket.GetIoLifecycle` | src/socket.js:7-79 | `getIo` fails before `initSocket` and returns the server `initSocket` built afterwards |
| `Dashboard.WithBid` | client/src/pages/Dashboard.jsx:41-45 | the spread sets bid and bidder from the event and keeps every other field |
| `Dashboard.ApplyUpdateBid` | client/src/pages/Dashboard.jsx:37-50 | the list keeps its length and order; items whose `id` or `_id` is the event's item get its bid and bidder, all others are unchanged |
| `Dashboard.UnknownItemUnchanged` | client/src/pages/Dashboard.jsx:47 | an event for an item not in the list leaves the list unchanged |
| `Dashboard.UpdateBidIdempotent` | client/src/pages/Dashboard.jsx:38-49 | applying the same event twice equals applying it once |
| `Dashboard.PrependItem` | client/src/pages/Dashboard.jsx:16-18 | the new item is first and the previous list follows unchanged |
| `Dashboard.PrependThenUpdate` | client/src/pages/Dashboard.jsx:16-18 | adding an item then applying an event equals applying the event then adding the (updated) item |
| `Dashboard.UpdateBidKeepsSync` | client/src/pages/Dashboard.jsx:37-50 | a list mirroring the store still mirrors it after the broadcast of an accepted bid is applied |
| `ItemCard.IsWinning` | client/src/components/ItemCard.jsx:22 | winning iff there is a user, the item has a bidder, and the bidder equals the user's `id` when that is truthy, else their `_id`; a null bidder never wins |
| `ItemCard.UserKey` | client/src/components/ItemCard.jsx:34 | the user's key is `id` when truthy, else `_id`; no user has no key |
| `ItemCard.WinningUsesPreferredKey` | client/src/components/ItemCard.jsx:22 | winning compares the bidder with `user.id` when truthy, not with `_id` |
| `ItemCard.InitialOutbid` | client/src/components/ItemCard.jsx:19-20 | the card starts not outbid, remembering the item's current bidder |
| `ItemCard.OutbidStep` | client/src/components/ItemCard.jsx:32-46 | the flag is raised when I was the previous bidder, am not now, and the auction runs; cleared when I am winning; otherwise kept; the previous bidder becomes the current one |
| `ItemCard.NoOutbidWithoutChange` | client/src/components/ItemCard.jsx:35-45 | while the bidder has not changed since the card appeared, the flag stays down |
| `ItemCard.EndedNeverRaises` | client/src/components/ItemCard.jsx:39 | after the end the flag is never newly raised |
| `ItemCard.Split` | client/src/components/ItemCard.jsx:61-63 | minutes and seconds are below 60 and h:m:s in milliseconds is at most the remaining time and within one second of it |
| `ItemCard.Display` | client/src/components/ItemCard.jsx:65-67 | the text has at least 8 characters, and exactly 8 iff hours, minutes and seconds are all below 100 |
| `ItemCard.DisplayShape` | client/src/components/ItemCard.jsx:65-67 | with minutes and seconds below 100 the colons sit 3 and 6 places from the end and the hour, minute and second fields are all digits |
| `ItemCard.DisplayRoundTrip` | client/src/components/ItemCard.jsx:65-67 | the padded `h:mm:ss` text reads back as its clock; it has 8 characters exactly when hours are below 100 |
| `ItemCard.UpdateTimer` | client/src/components/ItemCard.jsx:50-68 | at or past the end it shows "00:00:00" and marks the card ended; before, its text is the two-digit-padded display of the remaining time split into hours, minutes and seconds, and the ended flag is unchanged |
| `ItemCard.UpdateTimerReadsBack` | client/src/components/ItemCard.jsx:50-68 | before the end the countdown text reads back as the remaining time truncated to whole seconds, with minutes and seconds below 60; at or past the end the zeros are the zero clock's display |
| `ItemCard.EndInstantDisagreement` | client/src/components/ItemCard.jsx:55-58 | at exactly the end time the card shows ended while the server still accepts a higher bid |
| `ItemCard.PlaceBidClick` | client/src/components/ItemCard.jsx:75-81 | nothing is sent without a socket and a user; otherwise the bid is the item's key and its current bid plus 10 |
| `ItemCard.ClickedBidAccepted` | client/src/components/ItemCard.jsx:80-81 | a card mirroring the store sends a bid the server accepts while the auction is open |
| `ItemCard.BidDisabled` | client/src/components/ItemCard.jsx:140 | the button is disabled iff the auction ended or the user is winning |
| `SocketContext.Latency` | client/src/context/SocketContext.jsx:20 | the latency is half the round trip |
| `SocketContext.ClockOffset` | client/src/context/SocketContext.jsx:20-24 | the offset is the server time minus the round trip's midpoint; with a zero round trip it is server time minus the receive time |
| `SocketContext.OffsetErrorBound` | client/src/context/SocketContext.jsx:22-24 | if the server stamped its time during the round trip, the estimate is within half the round trip of the true offset |
| `SocketContext.SyncTime` | client/src/context/SocketContext.jsx:15-29 | a successful sync sets the offset from its readings; a failed one leaves it unchanged |
| `SocketContext.OffsetAfter` | client/src/context/SocketContext.jsx:11-29 | the offset is 0 until a sync succeeds, then that of the last successful sync |
| `SocketContext.SocketFor` | client/src/context/SocketContext.jsx:39-70 | a socket exists iff the token is truthy, and it authenticates with that token |
| `SocketContext.ClientSocketAdmitted` | client/src/context/SocketContext.jsx:49-53 | the client's socket is admitted by the server iff its token verifies |
| `UserService.Suffix` | src/services/user.service.js:18 | every generated suffix lies in 10..999 |
| `UserService.Candidate` | src/services/user.service.js:19 | a candidate is the original username followed by the suffix's shortest decimal form: two digits below 100, three from 100, no leading zero, reading back as the suffix; suffixes never accumulate |
| `UserService.ChooseUsername` | src/services/user.service.js:12-23 | a free name is kept without drawing; otherwise the chosen name is the first free candidate, every earlier candidate was taken, and the chosen name is not taken |
| `UserService.UserDirectory.CreateUser` | src/services/user.service.js:9-29 | the body's username is overwritten with the chosen name, which was not stored before and is stored afterwards; a free name is kept, a taken one is replaced by the first drawn candidate that is free, every earlier candidate having been taken |
| `Decimal.NatToString` | client/src/components/ItemCard.jsx:66 | `toString` gives a non-empty digit string without leading zero, one character long exactly below 10 |
| `Decimal.ParseNatToString` | client/src/components/ItemCard.jsx:66 | reading the decimal text of a number gives the number back |
| `Decimal.NatToStringLength` | src/services/user.service.js:17-18 | numbers 10..99 have two digits and 100..999 three |
| `Decimal.PadStart` | client/src/components/ItemCard.jsx:66 | `padStart` reaches the width by adding fill characters in front, leaving longer strings unchanged |
| `Decimal.Pad2Properties` | client/src/components/ItemCard.jsx:65-67 | padding to two keeps the value, has length 2 exactly below 100 and more digits from 100 up |

## Left out

- Concurrency: `placeBid` is one atomic step. The window between the
  existence and clock checks and the conditional update
  (src/services/item.service.js:57-72) is not modelled; in it a concurrent
  delete would surface as "Bid must be higher than current bid".
- The MongoDB transport, `ObjectId` casting (a malformed id throws a cast
  error), the `timestamps` fields `createdAt`/`updatedAt`, and `queryItems`
  (a pass-through `find` with filters).
- `ItemModel.Trim`: removes only the ASCII white-space characters, not the
  other Unicode spaces JavaScript's `trim` also removes.
- `ItemService.UpdateOutcome`: the update body cannot express an explicit
  `null`. In the source, `title: null` fails validation. `currentBid: null`
  is saved, and the item then refuses every bid, because `$lt` never
  matches null. A null `startingPrice` or `auctionEndTime` is also
  unmodelled, and so are `updateBody` keys outside the schema.
- `ItemService.Message`: the validation and duplicate-key texts are
  stand-ins. Mongoose's validation message lists every failing path
  ("Item validation failed: title: Path `title` is required."), and the
  driver's duplicate-key message names the collection, the index and the
  key (an "E11000 duplicate key error" text). Only the three `placeBid`
  messages are the program's exact texts.
- `ItemModel.NewItem`: an explicit `null` for `currentBid` in the creation
  body cannot be expressed; it is read as absent and gets the default 0.
  Mongoose defaults only undefined paths, so the source stores the null,
  and such an item then refuses every bid, because `$lt` never matches
  null. An explicit null `currentBidder` is modelled.
- `Socket.HandleBidPlaced`: a `BID_PLACED` event with no payload at all is
  not modelled. In the source, destructuring it throws a TypeError, and the
  sender receives that error's message. The payload is a `BidData` record
  whose `itemId` may be missing.
- Amounts are integers: fractional JavaScript numbers and a non-numeric
  `amount` in the payload are not modelled.
- Socket.IO transport, delivery guarantees and fan-out isolation, logging,
  and JWT verification and signing (src/services/token.service.js);
  verification is a function parameter returning the token's subject.
- `ItemCard.UpdateTimer`: the remaining time is whole milliseconds; the
  half-millisecond offsets `ClockOffset` can produce are not carried into
  the countdown.
- Browser plumbing: `setInterval` scheduling, the flash animation, CSS
  classes, `alert`, currency formatting, React effect scheduling, the
  HTTP fetch of the item list, and src/app.js, routes and controllers.
- `UserService.ChooseUsername`: with a finite supply of random draws it
  returns `None` when all of them give taken candidates, where the source
  keeps drawing (and never ends if all 990 suffixes are taken).
- `User.create`, `User.isUsernameTaken` and password handling:
  src/models/user.model.js is not part of this model; taken names are the
  set of stored usernames.
