/** The dashboard's item list (client/src/pages/Dashboard.jsx): the
    `UPDATE_BID` reducer and the prepend done when an item is added. */
module Dashboard {
  import opened Wrappers
  import opened ItemModel
  import opened ItemService
  import Socket

  /** An item as the client holds it; `dbId` is the document's `_id`, `id`
      the optional virtual. */
  datatype ClientItem = ClientItem(
    id: Option<Id>,
    dbId: Option<Id>,
    title: string,
    startingPrice: int,
    currentBid: int,
    currentBidder: Option<Id>,
    auctionEndTime: int)

  /** The `UPDATE_BID` payload as the client receives it. */
  datatype UpdateBidEvent = UpdateBidEvent(itemId: Id, currentBid: int, currentBidder: Id)

  /** `item.id === data.itemId || item._id === data.itemId`. */
  predicate Matches(item: ClientItem, e: UpdateBidEvent) {
    item.id == Some(e.itemId) || item.dbId == Some(e.itemId)
  }

  /** `{ ...item, currentBid: data.currentBid, currentBidder: data.currentBidder }`. */
  function WithBid(item: ClientItem, e: UpdateBidEvent): (r: ClientItem)
    ensures r.currentBid == e.currentBid && r.currentBidder == Some(e.currentBidder)
    ensures r.(currentBid := item.currentBid, currentBidder := item.currentBidder) == item
  {
    item.(currentBid := e.currentBid, currentBidder := Some(e.currentBidder))
  }

  /** `handleUpdateBid`: `prevItems.map(...)`. */
  function ApplyUpdateBid(items: seq<ClientItem>, e: UpdateBidEvent): (r: seq<ClientItem>)
    ensures |r| == |items|
    ensures forall i :: 0 <= i < |items| && Matches(items[i], e) ==> r[i] == WithBid(items[i], e)
    ensures forall i :: 0 <= i < |items| && !Matches(items[i], e) ==> r[i] == items[i]
    decreases |items|
  {
    if items == [] then []
    else
      var rest := ApplyUpdateBid(items[1..], e);
      [if Matches(items[0], e) then WithBid(items[0], e) else items[0]] + rest
  }

  /** An event for an item the list does not hold changes nothing. */
  lemma UnknownItemUnchanged(items: seq<ClientItem>, e: UpdateBidEvent)
    requires forall i :: 0 <= i < |items| ==> !Matches(items[i], e)
    ensures ApplyUpdateBid(items, e) == items
  {
  }

  /** Receiving the same event twice is receiving it once. */
  lemma UpdateBidIdempotent(items: seq<ClientItem>, e: UpdateBidEvent)
    ensures ApplyUpdateBid(ApplyUpdateBid(items, e), e) == ApplyUpdateBid(items, e)
  {
    var once := ApplyUpdateBid(items, e);
    assert forall i :: 0 <= i < |items| ==> Matches(once[i], e) == Matches(items[i], e);
  }

  /** `handleItemAdded`: `[newItem, ...prev]`. */
  function PrependItem(items: seq<ClientItem>, newItem: ClientItem): (r: seq<ClientItem>)
    ensures |r| == |items| + 1 && r[0] == newItem && r[1..] == items
  {
    [newItem] + items
  }

  /** Adding an item and then receiving an event is receiving the event and
      then adding the item with the event applied to it. */
  lemma PrependThenUpdate(items: seq<ClientItem>, newItem: ClientItem, e: UpdateBidEvent)
    ensures ApplyUpdateBid(PrependItem(items, newItem), e) ==
      PrependItem(ApplyUpdateBid(items, e), if Matches(newItem, e) then WithBid(newItem, e) else newItem)
  {
  }

  /** The client's copy of a stored item, as the server's JSON gives it. */
  predicate Mirrors(c: ClientItem, key: Id, s: Item) {
    c.dbId == Some(key) && (c.id.None? || c.id == Some(key))
    && c.title == s.title && c.startingPrice == s.startingPrice
    && c.currentBid == s.currentBid && c.currentBidder == s.currentBidder
    && c.auctionEndTime == s.auctionEndTime
  }

  /** Every listed item mirrors the stored item of its `_id`. */
  predicate InSync(items: seq<ClientItem>, store: Store) {
    forall i :: 0 <= i < |items| ==>
      items[i].dbId.Some? && items[i].dbId.value in store && Mirrors(items[i], items[i].dbId.value, store[items[i].dbId.value])
  }

  /** The broadcast of an accepted bid keeps an in-sync list in sync with the store. */
  lemma UpdateBidKeepsSync(items: seq<ClientItem>, store: Store, session: Socket.Session, data: Socket.BidData, now: int)
    requires InSync(items, store)
    requires Socket.ServiceCall(store, session, data, now).1.Success?
    ensures var r := Socket.HandleBidPlaced(store, session, data, now);
      var u := r.1[0].payload;
      InSync(ApplyUpdateBid(items, UpdateBidEvent(u.itemId, u.currentBid, u.currentBidder)), r.0)
  {
    var r := Socket.HandleBidPlaced(store, session, data, now);
    var u := r.1[0].payload;
    var e := UpdateBidEvent(u.itemId, u.currentBid, u.currentBidder);
    var after := ApplyUpdateBid(items, e);
    forall i | 0 <= i < |after|
      ensures after[i].dbId.Some? && after[i].dbId.value in r.0
      ensures Mirrors(after[i], after[i].dbId.value, r.0[after[i].dbId.value])
    {
      var key := items[i].dbId.value;
      if Matches(items[i], e) {
        assert key == e.itemId;
      }
    }
  }
}
