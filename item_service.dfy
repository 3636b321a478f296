/** The item service of src/services/item.service.js over a keyed item store.
    Each operation is specified by a pure outcome function on the store
    (`…Outcome`), whose contract states the service's promises; the class
    `ItemStore` performs the same steps on its `items` map in place and is
    proved to agree with those functions. */
module ItemService {
  import opened Wrappers
  import opened ItemModel

  datatype ServiceError =
    | ItemNotFound
    | AuctionEnded
    | BidTooLow
    | ValidationFailed(missing: set<Field>)
    | DuplicateKey

  /** The `message` of the Error each failure throws. The three `placeBid`
      texts are the service's own; the validation and duplicate-key texts are
      short stand-ins for the longer messages Mongoose and the driver build.
      Each kind has its own text, so the sender can tell them apart. */
  function Message(e: ServiceError): (m: string)
    ensures (m == "Item not found") == e.ItemNotFound?
    ensures (m == "Auction has ended") == e.AuctionEnded?
    ensures (m == "Bid must be higher than current bid") == e.BidTooLow?
    ensures (m == "Item validation failed") == e.ValidationFailed?
    ensures (m == "duplicate key error") == e.DuplicateKey?
  {
    match e
    case ItemNotFound => "Item not found"
    case AuctionEnded => "Auction has ended"
    case BidTooLow => "Bid must be higher than current bid"
    case ValidationFailed(_) => "Item validation failed"
    case DuplicateKey => "duplicate key error"
  }

  type Store = map<Id, Item>

  /** `Item.findById(id)`. */
  function Lookup(items: Store, id: Id): (r: Option<Item>)
    ensures r.Some? <==> id in items
    ensures r.Some? ==> r.value == items[id]
  {
    if id in items then Some(items[id]) else None
  }

  /** `Item.findOneAndUpdate({ _id: id, currentBid: { $lt: amount } },
      { $set: { currentBid: amount, currentBidder: bidder } }, { new: true })`,
      taken as one atomic compare-and-set on the store. */
  function ConditionalRaise(items: Store, id: Id, amount: int, bidder: Id): (r: (Store, Option<Item>))
    ensures r.1.Some? <==> id in items && items[id].currentBid < amount
    ensures r.1.Some? ==>
      && r.1.value == items[id].(currentBid := amount, currentBidder := Some(bidder))
      && r.0 == items[id := r.1.value]
    ensures r.1.None? ==> r.0 == items
  {
    if id in items && items[id].currentBid < amount then
      var updated := items[id].(currentBid := amount, currentBidder := Some(bidder));
      (items[id := updated], Some(updated))
    else
      (items, None)
  }

  /** `placeBid(itemId, amount, userId)` at server time `now`: the new store and
      what the call returns or throws. */
  function BidOutcome(items: Store, id: Id, amount: int, bidder: Id, now: int): (r: (Store, Result<Item, ServiceError>))
    // the three ways to fail, each exactly characterised
    ensures r.1 == Failure(ItemNotFound) <==> id !in items
    ensures r.1 == Failure(AuctionEnded) <==> id in items && now > items[id].auctionEndTime
    ensures r.1 == Failure(BidTooLow) <==>
      id in items && now <= items[id].auctionEndTime && amount <= items[id].currentBid
    ensures r.1.Success? || r.1 in {Failure(ItemNotFound), Failure(AuctionEnded), Failure(BidTooLow)}
    // a rejection changes nothing
    ensures r.1.Failure? ==> r.0 == items
    // an acceptance sets the bid and the bidder together and returns the new record
    ensures r.1.Success? ==>
      && id in items && r.0 == items[id := r.1.value]
      && r.1.value.currentBid == amount && r.1.value.currentBidder == Some(bidder)
      && r.1.value.title == items[id].title
      && r.1.value.startingPrice == items[id].startingPrice
      && r.1.value.auctionEndTime == items[id].auctionEndTime
    // store-wide: same keys, no bid decreases, every other entry untouched
    ensures r.0.Keys == items.Keys
    ensures forall k :: k in items ==> items[k].currentBid <= r.0[k].currentBid
    ensures forall k :: k in items && k != id ==> r.0[k] == items[k]
    ensures forall k :: k in items ==> r.0[k].auctionEndTime == items[k].auctionEndTime
  {
    if id !in items then
      (items, Failure(ItemNotFound))
    else if now > items[id].auctionEndTime then
      (items, Failure(AuctionEnded))
    else
      var (after, updated) := ConditionalRaise(items, id, amount, bidder);
      if updated.None? then (items, Failure(BidTooLow)) else (after, Success(updated.value))
  }

  /** A bid equal to the standing bid is refused, however early it comes. */
  lemma TiesRejected(items: Store, id: Id, bidder: Id, now: int)
    requires id in items && now <= items[id].auctionEndTime
    ensures BidOutcome(items, id, items[id].currentBid, bidder, now) == (items, Failure(BidTooLow))
  {
  }

  /** A bid placed at exactly the end time is still judged on its amount. */
  lemma BidAtEndTimeIsOpen(items: Store, id: Id, amount: int, bidder: Id)
    requires id in items && items[id].currentBid < amount
    ensures BidOutcome(items, id, amount, bidder, items[id].auctionEndTime).1.Success?
  {
  }

  /** `Object.assign(item, updateBody)`: each present path overwrites the
      stored one (through the `trim` setter for `title`), absent ones stay. */
  function Assign(item: Item, update: ItemBody): (r: Item)
    ensures r.title == if update.title.Some? then Trim(update.title.value) else item.title
    ensures r.startingPrice == if update.startingPrice.Some? then update.startingPrice.value else item.startingPrice
    ensures r.currentBid == if update.currentBid.Some? then update.currentBid.value else item.currentBid
    ensures r.currentBidder == if update.currentBidder.Some? then update.currentBidder.value else item.currentBidder
    ensures r.auctionEndTime == if update.auctionEndTime.Some? then update.auctionEndTime.value else item.auctionEndTime
  {
    Item(
      (match update.title case Some(t) => Trim(t) case None => item.title),
      (match update.startingPrice case Some(p) => p case None => item.startingPrice),
      (match update.currentBid case Some(b) => b case None => item.currentBid),
      (match update.currentBidder case Some(b) => b case None => item.currentBidder),
      (match update.auctionEndTime case Some(t) => t case None => item.auctionEndTime))
  }

  /** `updateItemById(itemId, updateBody)`: assign, then `save`, whose
      validation rejects an empty title. */
  function UpdateOutcome(items: Store, id: Id, update: ItemBody): (r: (Store, Result<Item, ServiceError>))
    ensures r.1 == Failure(ItemNotFound) <==> id !in items
    ensures r.1.Failure? ==> r.0 == items
    ensures r.1.Failure? ==> r.1 in {Failure(ItemNotFound), Failure(ValidationFailed({Title}))}
    ensures r.1.Success? <==> id in items && Assign(items[id], update).title != []
    ensures r.1.Success? ==> r.1.value == Assign(items[id], update) && r.0 == items[id := r.1.value]
  {
    if id !in items then
      (items, Failure(ItemNotFound))
    else
      var merged := Assign(items[id], update);
      if merged.title == [] then (items, Failure(ValidationFailed({Title})))
      else (items[id := merged], Success(merged))
  }

  /** The update path checks nothing about bids: it can lower the standing bid. */
  lemma UpdateCanLowerBid(items: Store, id: Id, lower: int)
    requires id in items && items[id].title != [] && lower < items[id].currentBid
    ensures var r := UpdateOutcome(items, id, ItemBody(None, None, Some(lower), None, None));
      r.1.Success? && r.0[id].currentBid < items[id].currentBid
  {
  }

  /** `deleteItemById(itemId)`: removes exactly that key and returns its last state. */
  function DeleteOutcome(items: Store, id: Id): (r: (Store, Result<Item, ServiceError>))
    ensures r.1.Failure? <==> id !in items
    ensures r.1.Failure? ==> r.1.error == ItemNotFound && r.0 == items
    ensures r.1.Success? ==> r.1.value == items[id] && r.0.Keys == items.Keys - {id}
    ensures forall k :: k in r.0 ==> k in items && r.0[k] == items[k]
  {
    if id !in items then (items, Failure(ItemNotFound)) else (items - {id}, Success(items[id]))
  }

  /** `createItem(itemBody)` with the `_id` the database assigns: validation
      first, then the unique index on `_id`. */
  function CreateOutcome(items: Store, id: Id, body: ItemBody): (r: (Store, Result<Item, ServiceError>))
    ensures r.1.Success? <==> NewItem(body).Success? && id !in items
    ensures r.1.Success? ==> r.1.value == NewItem(body).value && r.0 == items[id := r.1.value]
    ensures r.1.Success? && body.currentBid.None? ==> r.0[id].currentBid == 0
    ensures r.1.Success? && body.currentBidder.None? ==> r.0[id].currentBidder == None
    ensures r.1.Failure? ==> r.0 == items
    ensures NewItem(body).Failure? ==> r.1 == Failure(ValidationFailed(MissingFields(body)))
    ensures NewItem(body).Success? && id in items ==> r.1 == Failure(DuplicateKey)
  {
    match NewItem(body)
    case Failure(missing) => (items, Failure(ValidationFailed(missing)))
    case Success(item) => if id in items then (items, Failure(DuplicateKey)) else (items[id := item], Success(item))
  }

  /** The item collection, updated in place by the service's methods. */
  class ItemStore {
    var items: Store

    constructor ()
      ensures items == map[]
    {
      items := map[];
    }

    method CreateItem(id: Id, body: ItemBody) returns (r: Result<Item, ServiceError>)
      modifies this
      ensures (items, r) == CreateOutcome(old(items), id, body)
    {
      var made := NewItem(body);
      if made.Failure? {
        return Failure(ValidationFailed(made.error));
      }
      if id in items {
        return Failure(DuplicateKey);
      }
      items := items[id := made.value];
      return Success(made.value);
    }

    method GetItemById(id: Id) returns (r: Option<Item>)
      ensures r.Some? <==> id in items
      ensures r.Some? ==> r.value == items[id]
    {
      if id in items {
        r := Some(items[id]);
      } else {
        r := None;
      }
    }

    /** The database's atomic conditional update. */
    method FindOneAndUpdate(id: Id, amount: int, bidder: Id) returns (r: Option<Item>)
      modifies this
      ensures (items, r) == ConditionalRaise(old(items), id, amount, bidder)
    {
      if id in items && items[id].currentBid < amount {
        var updated := items[id].(currentBid := amount, currentBidder := Some(bidder));
        items := items[id := updated];
        r := Some(updated);
      } else {
        r := None;
      }
    }

    method PlaceBid(id: Id, amount: int, userId: Id, now: int) returns (r: Result<Item, ServiceError>)
      modifies this
      ensures (items, r) == BidOutcome(old(items), id, amount, userId, now)
    {
      var item := GetItemById(id);
      if item.None? {
        return Failure(ItemNotFound);
      }
      if now > item.value.auctionEndTime {
        return Failure(AuctionEnded);
      }
      var updated := FindOneAndUpdate(id, amount, userId);
      if updated.None? {
        return Failure(BidTooLow);
      }
      return Success(updated.value);
    }

    method UpdateItemById(id: Id, update: ItemBody) returns (r: Result<Item, ServiceError>)
      modifies this
      ensures (items, r) == UpdateOutcome(old(items), id, update)
    {
      var item := GetItemById(id);
      if item.None? {
        return Failure(ItemNotFound);
      }
      var merged := Assign(item.value, update);
      if merged.title == [] {
        return Failure(ValidationFailed({Title}));
      }
      items := items[id := merged];
      return Success(merged);
    }

    method DeleteItemById(id: Id) returns (r: Result<Item, ServiceError>)
      modifies this
      ensures (items, r) == DeleteOutcome(old(items), id)
    {
      var item := GetItemById(id);
      if item.None? {
        return Failure(ItemNotFound);
      }
      items := items - {id};
      return Success(item.value);
    }
  }
}
