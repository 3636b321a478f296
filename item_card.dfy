/** The bidding card of one item (client/src/components/ItemCard.jsx): who
    is winning, the outbid flag, the countdown text, the "+10" bid it sends
    and when its button is disabled. */
module ItemCard {
  import opened Wrappers
  import opened ItemModel
  import opened Decimal
  import opened Dashboard
  import ItemService
  import Socket

  /** The logged-in user as the client holds it (`id` and `_id`). */
  datatype User = User(id: Option<Id>, dbId: Option<Id>)

  /** `user?.id || user?._id`. */
  function UserKey(user: Option<User>): (k: Option<Id>)
    ensures user.None? ==> k.None?
    ensures user.Some? && Truthy(user.value.id) ==> k == user.value.id
    ensures user.Some? && !Truthy(user.value.id) ==> k == user.value.dbId
  {
    match user
    case None => None
    case Some(u) => OrElse(u.id, u.dbId)
  }

  /** `user && item.currentBidder === (user.id || user._id)`; a `null` bidder
      never equals a missing key. */
  predicate IsWinning(user: Option<User>, item: ClientItem): (w: bool)
    ensures w ==> user.Some? && item.currentBidder.Some?
    ensures w <==> (user.Some? && item.currentBidder.Some? &&
      if Truthy(user.value.id) then item.currentBidder == user.value.id
      else item.currentBidder == user.value.dbId)
  {
    user.Some? && UserKey(user).Some? && item.currentBidder == UserKey(user)
  }

  /** Only the preferred key counts: a user whose truthy `id` differs from the
      bidder is not winning even if their `_id` is the bidder. */
  lemma WinningUsesPreferredKey(item: ClientItem, id: Id, dbId: Id)
    requires id != "" && id != dbId && item.currentBidder == Some(dbId)
    ensures !IsWinning(Some(User(Some(id), Some(dbId))), item)
    ensures IsWinning(Some(User(None, Some(dbId))), item)
  {
  }

  /** The state of the outbid effect. */
  datatype OutbidState = OutbidState(outbid: bool, prevBidder: Option<Id>)

  /** `useState(false)` and `useState(item.currentBidder)`. */
  function InitialOutbid(item: ClientItem): (s: OutbidState)
    ensures !s.outbid && s.prevBidder == item.currentBidder
  {
    OutbidState(false, item.currentBidder)
  }

  /** The condition that raises the flag: I was the bidder, now I am not, and
      the auction is still running. */
  predicate Overtaken(s: OutbidState, item: ClientItem, user: Option<User>, isEnded: bool) {
    var userId := UserKey(user);
    Truthy(userId) && s.prevBidder == userId && item.currentBidder != userId && !isEnded
  }

  /** One run of the outbid effect. */
  function OutbidStep(s: OutbidState, item: ClientItem, user: Option<User>, isEnded: bool): (r: OutbidState)
    ensures r.prevBidder == item.currentBidder
    ensures Overtaken(s, item, user, isEnded) ==> r.outbid
    ensures IsWinning(user, item) ==> !r.outbid
    ensures !Overtaken(s, item, user, isEnded) && !IsWinning(user, item) ==> r.outbid == s.outbid
  {
    var flag :=
      if Overtaken(s, item, user, isEnded) then true
      else if IsWinning(user, item) then false
      else s.outbid;
    OutbidState(flag, item.currentBidder)
  }

  /** While the bidder has not changed since the card appeared, nobody is outbid. */
  lemma NoOutbidWithoutChange(item: ClientItem, user: Option<User>, isEnded: bool)
    ensures !OutbidStep(InitialOutbid(item), item, user, isEnded).outbid
  {
  }

  /** Once the auction has ended the flag is never newly raised. */
  lemma EndedNeverRaises(s: OutbidState, item: ClientItem, user: Option<User>)
    requires !s.outbid
    ensures !OutbidStep(s, item, user, true).outbid
  {
  }

  const MsPerSecond: nat := 1000
  const MsPerMinute: nat := 1000 * 60
  const MsPerHour: nat := 1000 * 60 * 60

  /** Hours, minutes and seconds of a countdown. */
  datatype Clock = Clock(h: nat, m: nat, s: nat)

  function ClockMs(c: Clock): nat {
    c.h * MsPerHour + c.m * MsPerMinute + c.s * MsPerSecond
  }

  /** `Math.floor(diff / 3600000)`, `Math.floor((diff % 3600000) / 60000)` and
      `Math.floor((diff % 60000) / 1000)` for a positive `diff`: the remaining
      time cut down to whole seconds. */
  function Split(diff: nat): (c: Clock)
    ensures c.m < 60 && c.s < 60
    ensures ClockMs(c) <= diff < ClockMs(c) + MsPerSecond
  {
    var h := diff / MsPerHour;
    var rh := diff % MsPerHour;
    var m := rh / MsPerMinute;
    var s := (diff % MsPerMinute) / MsPerSecond;
    assert diff % MsPerMinute == rh % MsPerMinute by { MinuteRemainder(diff); }
    Clock(h, m, s)
  }

  /** An hour is a whole number of minutes, so the remainder modulo a minute
      can be taken after the remainder modulo an hour. */
  lemma MinuteRemainder(x: nat)
    ensures x % MsPerMinute == (x % MsPerHour) % MsPerMinute
  {
    var r := x % 3600000;
    assert x == 3600000 * (x / 3600000) + r;
    assert r == 60000 * (r / 60000) + r % 60000;
    assert x == 60000 * (60 * (x / 3600000) + r / 60000) + r % 60000;
  }

  /** `h:mm:ss` with each part padded to two digits and joined by ':'; it
      has eight characters exactly when every part is below 100. */
  function Display(c: Clock): (d: string)
    ensures |d| >= 8 && (|d| == 8) == (c.h < 100 && c.m < 100 && c.s < 100)
  {
    Pad2Properties(c.h);
    Pad2Properties(c.m);
    Pad2Properties(c.s);
    Pad2(c.h) + ":" + Pad2(c.m) + ":" + Pad2(c.s)
  }

  /** With minutes and seconds below 100 the colons of a display sit three and
      six places from the end, and the three fields around them are digits. */
  lemma DisplayShape(c: Clock)
    requires c.m < 100 && c.s < 100
    ensures var d := Display(c);
      && d[|d| - 3] == ':' && d[|d| - 6] == ':'
      && AllDigits(d[..|d| - 6]) && AllDigits(d[|d| - 5..|d| - 3]) && AllDigits(d[|d| - 2..])
  {
    Pad2Properties(c.h);
    Pad2Properties(c.m);
    Pad2Properties(c.s);
    Joined(Display(c), Pad2(c.h), Pad2(c.m), Pad2(c.s));
  }

  /** The shape of `a:b:c` for digit fields with two-character `b` and `c`. */
  lemma Joined(d: string, a: string, b: string, c: string)
    requires d == a + ":" + b + ":" + c
    requires |b| == 2 && |c| == 2
    requires AllDigits(a) && AllDigits(b) && AllDigits(c)
    ensures |d| == |a| + 6 && d[|d| - 3] == ':' && d[|d| - 6] == ':'
    ensures AllDigits(d[..|d| - 6]) && AllDigits(d[|d| - 5..|d| - 3]) && AllDigits(d[|d| - 2..])
  {
    Fields(a, b, c);
  }

  /** Reads a display back: the last two fields have two digits, the hours the rest. */
  function ParseDisplay(d: string): (r: Option<Clock>)
  {
    var n := |d|;
    if n >= 7 && d[n - 3] == ':' && d[n - 6] == ':'
       && AllDigits(d[..n - 6]) && AllDigits(d[n - 5..n - 3]) && AllDigits(d[n - 2..])
    then Some(Clock(ParseDigits(d[..n - 6]), ParseDigits(d[n - 5..n - 3]), ParseDigits(d[n - 2..])))
    else None
  }

  /** A display of minutes and seconds below 100 reads back as the clock it shows;
      it has exactly eight characters when the hours are below 100. */
  lemma DisplayRoundTrip(c: Clock)
    requires c.m < 100 && c.s < 100
    ensures ParseDisplay(Display(c)) == Some(c)
    ensures |Display(c)| >= 8
    ensures (|Display(c)| == 8) == (c.h < 100)
  {
    Pad2Properties(c.h);
    Pad2Properties(c.m);
    Pad2Properties(c.s);
    ParseFields(Pad2(c.h), Pad2(c.m), Pad2(c.s));
  }

  /** `a:b:c` reads back field by field when every field is digits and the
      last two have two of them. */
  lemma ParseFields(a: string, b: string, c: string)
    requires |a| >= 1 && |b| == 2 && |c| == 2
    requires AllDigits(a) && AllDigits(b) && AllDigits(c)
    ensures ParseDisplay(a + ":" + b + ":" + c) == Some(Clock(ParseDigits(a), ParseDigits(b), ParseDigits(c)))
  {
    Fields(a, b, c);
  }

  /** Where the three fields of `a:b:c` sit when `b` and `c` have two characters. */
  lemma Fields(a: string, b: string, c: string)
    requires |b| == 2 && |c| == 2
    ensures var d := a + ":" + b + ":" + c; var n := |d|;
      && n == |a| + 6 && d[n - 3] == ':' && d[n - 6] == ':'
      && d[..n - 6] == a && d[n - 5..n - 3] == b && d[n - 2..] == c
  {
  }

  /** The countdown text and the ended flag. */
  datatype TimerState = TimerState(timeLeft: string, isEnded: bool)

  /** `updateTimer` at server time `serverNow` (the local clock plus the offset):
      at or past the end it shows zeros and marks the card ended; before it,
      it shows the padded display of the remaining time and leaves the flag
      as it was. */
  function UpdateTimer(t: TimerState, auctionEndTime: int, serverNow: int): (r: TimerState)
    ensures serverNow >= auctionEndTime ==> r == TimerState("00:00:00", true)
    ensures serverNow < auctionEndTime ==>
      && r.isEnded == t.isEnded
      && r.timeLeft == Display(Split(auctionEndTime - serverNow))
  {
    if auctionEndTime <= serverNow then TimerState("00:00:00", true)
    else TimerState(Display(Split(auctionEndTime - serverNow)), t.isEnded)
  }

  /** Before the end, the countdown text reads back as the remaining time
      truncated to whole seconds, with minutes and seconds below 60; at or
      past the end the zeros are the display of the zero clock. */
  lemma UpdateTimerReadsBack(t: TimerState, auctionEndTime: int, serverNow: int)
    ensures serverNow >= auctionEndTime ==>
      UpdateTimer(t, auctionEndTime, serverNow).timeLeft == Display(Clock(0, 0, 0))
    ensures serverNow < auctionEndTime ==>
      && var c := ParseDisplay(UpdateTimer(t, auctionEndTime, serverNow).timeLeft);
         c.Some? && c.value.m < 60 && c.value.s < 60
         && ClockMs(c.value) <= auctionEndTime - serverNow < ClockMs(c.value) + MsPerSecond
  {
    if serverNow < auctionEndTime {
      DisplayRoundTrip(Split(auctionEndTime - serverNow));
    } else {
      assert Display(Clock(0, 0, 0)) == "00:00:00";
    }
  }

  /** The card and the server disagree at the final millisecond: at exactly the
      end time the card shows the auction as ended, yet the server still
      accepts a higher bid. */
  lemma EndInstantDisagreement(t: TimerState, items: ItemService.Store, id: Id, amount: int, bidder: Id)
    requires id in items && items[id].currentBid < amount
    ensures var end := items[id].auctionEndTime;
      UpdateTimer(t, end, end).isEnded
      && ItemService.BidOutcome(items, id, amount, bidder, end).1.Success?
  {
  }

  const BidStep: int := 10

  /** `placeBid`: without a socket or a user nothing is sent; otherwise a
      `BID_PLACED` for the item's key at ten above the shown bid. */
  function PlaceBidClick(hasSocket: bool, user: Option<User>, item: ClientItem): (r: Option<Socket.BidData>)
    ensures r.Some? <==> hasSocket && user.Some?
    ensures r.Some? ==> r.value.amount == item.currentBid + BidStep
    ensures r.Some? ==> r.value.itemId == OrElse(item.id, item.dbId)
  {
    if !hasSocket || user.None? then None
    else Some(Socket.BidData(OrElse(item.id, item.dbId), item.currentBid + BidStep))
  }

  /** When the card mirrors the store and the auction is open, the bid it
      sends is accepted, since it is strictly above the standing bid. */
  lemma ClickedBidAccepted(item: ClientItem, store: ItemService.Store, key: Id,
                           user: User, session: Socket.Session, now: int)
    requires key in store && Mirrors(item, key, store[key])
    requires now <= store[key].auctionEndTime
    ensures var req := PlaceBidClick(true, Some(user), item);
      req.Some? && Socket.ServiceCall(store, session, req.value, now).1.Success?
  {
    var req := PlaceBidClick(true, Some(user), item);
    assert req.value.itemId == Some(key);
  }

  /** `disabled={isEnded || (user && isWinning)}`; `isWinning` already implies a user. */
  function BidDisabled(isEnded: bool, user: Option<User>, item: ClientItem): (r: bool)
    ensures r <==> isEnded || IsWinning(user, item)
    ensures !r ==> !IsWinning(user, item)
  {
    isEnded || (user.Some? && IsWinning(user, item))
  }
}
