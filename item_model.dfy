/** The auction item record of src/models/item.model.js: its fields, the
    `trim` setter on `title`, the `required` validators and the creation
    defaults of `currentBid` (0) and `currentBidder` (null). */
module ItemModel {
  import opened Wrappers

  /** Document ids (`ObjectId`s) and user ids, as the strings clients see. */
  type Id = string

  /** Money and times are whole numbers (dollars, milliseconds). */
  datatype Item = Item(
    title: string,
    startingPrice: int,
    currentBid: int,
    currentBidder: Option<Id>,
    auctionEndTime: int)

  /** The schema paths whose `required` validator can fail. */
  datatype Field = Title | StartingPrice | AuctionEndTime

  /** The body handed to `Item.create`: every path may be absent. */
  datatype ItemBody = ItemBody(
    title: Option<string>,
    startingPrice: Option<int>,
    currentBid: Option<int>,
    currentBidder: Option<Option<Id>>,
    auctionEndTime: Option<int>)

  /** The characters `String.prototype.trim` removes (the ASCII subset). */
  predicate IsSpace(c: char) {
    c == ' ' || c == '\t' || c == '\n' || c == '\r' || c == '\U{000B}' || c == '\U{000C}'
  }

  /** Index of the first character at or after `i` that is not a space. */
  function SkipSpaces(s: string, i: nat): (k: nat)
    requires i <= |s|
    ensures i <= k <= |s|
    ensures forall j :: i <= j < k ==> IsSpace(s[j])
    ensures k < |s| ==> !IsSpace(s[k])
    decreases |s| - i
  {
    if i < |s| && IsSpace(s[i]) then SkipSpaces(s, i + 1) else i
  }

  /** Index just past the last character before `e`, and at or after `lo`,
      that is not a space. */
  function SkipSpacesBack(s: string, lo: nat, e: nat): (k: nat)
    requires lo <= e <= |s|
    ensures lo <= k <= e
    ensures forall j :: k <= j < e ==> IsSpace(s[j])
    ensures lo < k ==> !IsSpace(s[k - 1])
  {
    if lo < e && IsSpace(s[e - 1]) then SkipSpacesBack(s, lo, e - 1) else e
  }

  /** `s.trim()`: the infix of `s` left after removing the spaces at both
      ends; it neither starts nor ends with a space. */
  function Trim(s: string): (r: string)
    ensures var k := SkipSpaces(s, 0);
      && k + |r| <= |s| && r == s[k..k + |r|]
      && (forall i :: 0 <= i < k ==> IsSpace(s[i]))
      && (forall i :: k + |r| <= i < |s| ==> IsSpace(s[i]))
    ensures r == [] || (!IsSpace(r[0]) && !IsSpace(r[|r| - 1]))
  {
    var k := SkipSpaces(s, 0);
    var e := SkipSpacesBack(s, k, |s|);
    s[k..e]
  }

  /** Trimming twice is trimming once: the stored title is a fixed point. */
  lemma TrimIdempotent(s: string)
    ensures Trim(Trim(s)) == Trim(s)
  {
    var r := Trim(s);
    if r != [] {
      assert SkipSpaces(r, 0) == 0;
      assert SkipSpacesBack(r, 0, |r|) == |r|;
    }
  }

  /** The paths whose `required` validator fails for `body`, after the setters ran. */
  function MissingFields(body: ItemBody): (missing: set<Field>)
    ensures (Title in missing) == (body.title.None? || Trim(body.title.value) == [])
    ensures (StartingPrice in missing) == body.startingPrice.None?
    ensures (AuctionEndTime in missing) == body.auctionEndTime.None?
  {
    (if body.title.None? || Trim(body.title.value) == [] then {Title} else {})
    + (if body.startingPrice.None? then {StartingPrice} else {})
    + (if body.auctionEndTime.None? then {AuctionEndTime} else {})
  }

  /** A new document built from `body`: fails validation listing every missing
      required path, otherwise applies the `trim` setter and the defaults. */
  function NewItem(body: ItemBody): (r: Result<Item, set<Field>>)
    ensures r.Failure? <==>
      body.title.None? || Trim(body.title.value) == [] ||
      body.startingPrice.None? || body.auctionEndTime.None?
    ensures r.Failure? ==> r.error != {} && r.error == MissingFields(body)
    ensures r.Success? ==>
      && r.value.title == Trim(body.title.value) && r.value.title != []
      && r.value.startingPrice == body.startingPrice.value
      && r.value.auctionEndTime == body.auctionEndTime.value
      && r.value.currentBid == (if body.currentBid.Some? then body.currentBid.value else 0)
      && r.value.currentBidder == (if body.currentBidder.Some? then body.currentBidder.value else None)
  {
    var missing := MissingFields(body);
    if missing != {} then
      Failure(missing)
    else
      Success(Item(
        Trim(body.title.value),
        body.startingPrice.value,
        (match body.currentBid case Some(b) => b case None => 0),
        (match body.currentBidder case Some(b) => b case None => None),
        body.auctionEndTime.value))
  }

  /** An item listed with only its required fields starts at bid 0 with no
      bidder, whatever its starting price. */
  lemma NewItemDefaults(title: string, startingPrice: int, auctionEndTime: int)
    requires Trim(title) != []
    ensures var r := NewItem(ItemBody(Some(title), Some(startingPrice), None, None, Some(auctionEndTime)));
      r == Success(Item(Trim(title), startingPrice, 0, None, auctionEndTime))
  {
  }
}
