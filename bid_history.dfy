/** What a sequence of `placeBid` calls does to the store when each call runs
    as one atomic step (src/services/item.service.js:56-81): the standing bid
    of an item ends at the highest timely offer, whatever the order of
    arrival, and the accepted amounts for one item strictly increase. */
module BidHistory {
  import opened Wrappers
  import opened ItemModel
  import opened ItemService

  /** A bid intent as the service sees it: item, amount, bidder, and the
      server clock when the call runs. */
  datatype Bid = Bid(itemId: Id, amount: int, bidder: Id, at: int)

  /** Places `bids` one after another and collects each call's outcome. */
  function Run(items: Store, bids: seq<Bid>): (r: (Store, seq<Result<Item, ServiceError>>))
    ensures |r.1| == |bids|
    ensures r.0.Keys == items.Keys
    ensures forall k :: k in items ==> items[k].currentBid <= r.0[k].currentBid
    ensures forall k :: k in items ==>
      && r.0[k].title == items[k].title
      && r.0[k].startingPrice == items[k].startingPrice
      && r.0[k].auctionEndTime == items[k].auctionEndTime
    decreases |bids|
  {
    if bids == [] then (items, [])
    else
      var (before, results) := Run(items, bids[..|bids| - 1]);
      var b := bids[|bids| - 1];
      var (after, outcome) := BidOutcome(before, b.itemId, b.amount, b.bidder, b.at);
      (after, results + [outcome])
  }

  predicate Timely(b: Bid, id: Id, end: int) {
    b.itemId == id && b.at <= end
  }

  /** The largest of `init` and the amounts of the bids for `id` made by `end`. */
  function Highest(init: int, end: int, id: Id, bids: seq<Bid>): (h: int)
    ensures h >= init
    ensures forall i :: 0 <= i < |bids| && Timely(bids[i], id, end) ==> bids[i].amount <= h
    ensures h == init || exists i :: 0 <= i < |bids| && Timely(bids[i], id, end) && bids[i].amount == h
    decreases |bids|
  {
    if bids == [] then init
    else
      var h := Highest(init, end, id, bids[..|bids| - 1]);
      var b := bids[|bids| - 1];
      if Timely(b, id, end) && b.amount > h then b.amount else h
  }

  /** The final standing bid of every item is its highest timely offer. */
  lemma {:induction false} FinalBidIsHighest(items: Store, bids: seq<Bid>, id: Id)
    requires id in items
    ensures Run(items, bids).0[id].currentBid ==
      Highest(items[id].currentBid, items[id].auctionEndTime, id, bids)
    decreases |bids|
  {
    if bids != [] {
      FinalBidIsHighest(items, bids[..|bids| - 1], id);
    }
  }

  /** The final bidder is the one recorded at the start, or the author of a
      timely bid of exactly the final amount that was accepted. */
  lemma {:induction false} FinalBidderMadeFinalBid(items: Store, bids: seq<Bid>, id: Id)
    requires id in items
    ensures var r := Run(items, bids); var s := r.0[id];
      || (s.currentBid == items[id].currentBid && s.currentBidder == items[id].currentBidder)
      || exists i :: 0 <= i < |bids| && Timely(bids[i], id, items[id].auctionEndTime)
           && r.1[i].Success? && bids[i].amount == s.currentBid && s.currentBidder == Some(bids[i].bidder)
    decreases |bids|
  {
    if bids != [] {
      var prefix := bids[..|bids| - 1];
      FinalBidderMadeFinalBid(items, prefix, id);
      var r := Run(items, bids);
      var p := Run(items, prefix);
      var n := |prefix|;
      var end := items[id].auctionEndTime;
      if r.1[n].Success? && bids[n].itemId == id {
        assert Timely(bids[n], id, end);
      } else {
        assert r.0[id] == p.0[id];
        if exists i :: 0 <= i < n && Timely(prefix[i], id, end)
             && p.1[i].Success? && prefix[i].amount == p.0[id].currentBid
             && p.0[id].currentBidder == Some(prefix[i].bidder)
        {
          var i :| 0 <= i < n && Timely(prefix[i], id, end)
             && p.1[i].Success? && prefix[i].amount == p.0[id].currentBid
             && p.0[id].currentBidder == Some(prefix[i].bidder);
          assert r.1[i] == p.1[i] && bids[i] == prefix[i];
        }
      }
    }
  }

  /** Every accepted bid is still bounded by the item's standing bid. */
  lemma {:induction false} AcceptedBelowStanding(items: Store, bids: seq<Bid>)
    ensures var r := Run(items, bids);
      forall i :: 0 <= i < |bids| && r.1[i].Success? ==>
        && bids[i].itemId in items
        && r.1[i].value.currentBid == bids[i].amount
        && bids[i].amount <= r.0[bids[i].itemId].currentBid
    decreases |bids|
  {
    if bids != [] {
      var prefix := bids[..|bids| - 1];
      AcceptedBelowStanding(items, prefix);
      var r := Run(items, bids);
      var p := Run(items, prefix);
      assert r.1 == p.1 + [r.1[|prefix|]];
      assert bids == prefix + [bids[|prefix|]];
    }
  }

  /** For one item, the accepted amounts strictly increase in order of application. */
  lemma {:induction false} AcceptedBidsIncrease(items: Store, bids: seq<Bid>)
    ensures var r := Run(items, bids);
      forall i, j ::
        (0 <= i < j < |bids| && bids[i].itemId == bids[j].itemId && r.1[i].Success? && r.1[j].Success?)
        ==> r.1[i].value.currentBid < r.1[j].value.currentBid
    decreases |bids|
  {
    if bids != [] {
      var prefix := bids[..|bids| - 1];
      AcceptedBidsIncrease(items, prefix);
      AcceptedBelowStanding(items, prefix);
      var r := Run(items, bids);
      var p := Run(items, prefix);
      assert r.1 == p.1 + [r.1[|prefix|]];
      assert bids == prefix + [bids[|prefix|]];
    }
  }

  /** The highest offer among `bids` is no larger than among any `bids'`
      holding at least the same bids. */
  lemma HighestMonotone(init: int, end: int, id: Id, bids: seq<Bid>, bids': seq<Bid>)
    requires multiset(bids) <= multiset(bids')
    ensures Highest(init, end, id, bids) <= Highest(init, end, id, bids')
  {
    var h := Highest(init, end, id, bids);
    if h != init {
      var i :| 0 <= i < |bids| && Timely(bids[i], id, end) && bids[i].amount == h;
      assert bids[i] in multiset(bids');
      var j :| 0 <= j < |bids'| && bids'[j] == bids[i];
    }
  }

  /** Whatever order the same bids arrive in, each item ends at the same standing bid. */
  lemma FinalBidOrderIndependent(items: Store, bids: seq<Bid>, bids': seq<Bid>, id: Id)
    requires id in items && multiset(bids) == multiset(bids')
    ensures Run(items, bids).0[id].currentBid == Run(items, bids').0[id].currentBid
  {
    FinalBidIsHighest(items, bids, id);
    FinalBidIsHighest(items, bids', id);
    HighestMonotone(items[id].currentBid, items[id].auctionEndTime, id, bids, bids');
    HighestMonotone(items[id].currentBid, items[id].auctionEndTime, id, bids', bids);
  }

  /** An item at 0: A offers 100 (accepted), B offers 100 (a tie, refused),
      B offers 150 (accepted), A offers 120 (refused); B holds 150. */
  lemma TieScenario(item: Item, a: Id, b: Id)
    requires item.currentBid == 0 && 0 <= item.auctionEndTime
    ensures var items := map["lot" := item];
      var r := Run(items, [Bid("lot", 100, a, 0), Bid("lot", 100, b, 0), Bid("lot", 150, b, 0), Bid("lot", 120, a, 0)]);
      && r.1[0].Success? && r.1[1] == Failure(BidTooLow)
      && r.1[2].Success? && r.1[3] == Failure(BidTooLow)
      && r.0["lot"].currentBid == 150 && r.0["lot"].currentBidder == Some(b)
  {
    var items := map["lot" := item];
    var bids := [Bid("lot", 100, a, 0), Bid("lot", 100, b, 0), Bid("lot", 150, b, 0), Bid("lot", 120, a, 0)];
    var s1 := items["lot" := item.(currentBid := 100, currentBidder := Some(a))];
    var s3 := items["lot" := item.(currentBid := 150, currentBidder := Some(b))];
    assert bids[..1][..0] == [];
    assert Run(items, bids[..1]).0 == s1;
    assert bids[..2][..1] == bids[..1];
    assert Run(items, bids[..2]).0 == s1;
    assert bids[..3][..2] == bids[..2];
    assert Run(items, bids[..3]).0 == s3;
    assert bids[..3] == bids[..|bids| - 1];
  }
}
