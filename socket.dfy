/** The real-time layer of src/socket.js: the handshake gate, the
    `BID_PLACED` handler with the events it emits, disconnect, and the
    module-level `io` instance behind `initSocket`/`getIo`. Token
    verification is a parameter (`verify`), standing for `jwt.verify` with
    the server's secret and yielding the token's subject. */
module Socket {
  import opened Wrappers
  import opened ItemModel
  import opened ItemService
  import BidHistory

  datatype Auth = Auth(token: Option<string>)

  /** `socket.handshake`: the `auth` object may be missing. */
  datatype Handshake = Handshake(auth: Option<Auth>)

  /** An admitted connection, bound to the verified subject `socket.user.sub`. */
  datatype Session = Session(user: Id)

  const AuthenticationError: string := "Authentication error"

  /** The `io.use` middleware: a truthy token that verifies admits the
      connection as its subject; anything else refuses it. */
  function Admit(h: Handshake, verify: string -> Option<Id>): (r: Result<Session, string>)
    ensures r.Success? <==>
      h.auth.Some? && Truthy(h.auth.value.token) && verify(h.auth.value.token.value).Some?
    ensures r.Success? ==> r.value.user == verify(h.auth.value.token.value).value
    ensures r.Failure? ==> r.error == AuthenticationError
  {
    if h.auth.Some? && Truthy(h.auth.value.token) then
      match verify(h.auth.value.token.value)
      case Some(sub) => Success(Session(sub))
      case None => Failure(AuthenticationError)
    else
      Failure(AuthenticationError)
  }

  /** Without a token no verifier can admit the connection. */
  lemma NoTokenNoConnection(verify: string -> Option<Id>)
    ensures Admit(Handshake(None), verify).Failure?
    ensures Admit(Handshake(Some(Auth(None))), verify).Failure?
    ensures Admit(Handshake(Some(Auth(Some("")))), verify).Failure?
  {
  }

  /** The payloads the server emits. */
  datatype Payload =
    | UpdateBid(itemId: Id, currentBid: int, currentBidder: Id)
    | BidSuccess(itemId: Id, amount: int)
    | ErrorMessage(message: string)

  /** `io.emit` reaches every connected client, `socket.emit` only the sender. */
  datatype Emit = ToAll(payload: Payload) | ToSender(payload: Payload)

  /** The client's `BID_PLACED` payload; `itemId` may be missing. It carries no
      bidder: the bidder is always the session's subject. */
  datatype BidData = BidData(itemId: Option<Id>, amount: int)

  /** The service call the handler makes. `findById(undefined)` finds nothing,
      so a missing `itemId` fails as an unknown item. */
  function ServiceCall(items: Store, session: Session, data: BidData, now: int): (r: (Store, Result<Item, ServiceError>))
    ensures data.itemId.None? ==> r == (items, Failure(ItemNotFound))
    ensures data.itemId.Some? ==> r == BidOutcome(items, data.itemId.value, data.amount, session.user, now)
  {
    match data.itemId
    case None => (items, Failure(ItemNotFound))
    case Some(id) => BidOutcome(items, id, data.amount, session.user, now)
  }

  /** The `BID_PLACED` handler: on success the update is broadcast first and
      the sender acknowledged second; on failure only the sender hears of it. */
  function HandleBidPlaced(items: Store, session: Session, data: BidData, now: int): (r: (Store, seq<Emit>))
    ensures r.0 == ServiceCall(items, session, data, now).0
    ensures ServiceCall(items, session, data, now).1.Success? ==>
      && data.itemId.Some?
      && r.1 == [ToAll(UpdateBid(data.itemId.value, data.amount, session.user)),
                 ToSender(BidSuccess(data.itemId.value, data.amount))]
      && r.0[data.itemId.value].currentBid == data.amount
      && r.0[data.itemId.value].currentBidder == Some(session.user)
    ensures ServiceCall(items, session, data, now).1.Failure? ==>
      && r.0 == items
      && r.1 == [ToSender(ErrorMessage(Message(ServiceCall(items, session, data, now).1.error)))]
  {
    var (after, outcome) := ServiceCall(items, session, data, now);
    match outcome
    case Success(updated) =>
      var id := data.itemId.value;
      (after, [ToAll(UpdateBid(id, updated.currentBid, session.user)),
               ToSender(BidSuccess(id, updated.currentBid))])
    case Failure(e) =>
      (items, [ToSender(ErrorMessage(Message(e)))])
  }

  /** Every broadcast names the session's own subject as bidder and agrees
      with the store it leaves behind. */
  lemma BroadcastMatchesStore(items: Store, session: Session, data: BidData, now: int)
    ensures var r := HandleBidPlaced(items, session, data, now);
      forall k :: 0 <= k < |r.1| && r.1[k].ToAll? ==>
        && k == 0 && r.1[k].payload.UpdateBid?
        && r.1[k].payload.currentBidder == session.user
        && r.1[k].payload.itemId in r.0
        && r.0[r.1[k].payload.itemId].currentBid == r.1[k].payload.currentBid
        && r.0[r.1[k].payload.itemId].currentBidder == Some(session.user)
  {
  }

  /** What an admitted client can send. */
  datatype ClientMessage = BidPlaced(data: BidData) | Disconnect

  /** One message from an admitted client; a disconnect only logs. */
  function OnMessage(items: Store, session: Session, msg: ClientMessage, now: int): (r: (Store, seq<Emit>))
    ensures msg.Disconnect? ==> r == (items, [])
    ensures msg.BidPlaced? ==> r == HandleBidPlaced(items, session, msg.data, now)
  {
    match msg
    case BidPlaced(data) => HandleBidPlaced(items, session, data, now)
    case Disconnect => (items, [])
  }

  datatype Timed = Timed(msg: ClientMessage, at: int)

  /** The bids the service sees from a session's messages: those that name an item. */
  function BidsOf(session: Session, msgs: seq<Timed>): (bids: seq<BidHistory.Bid>)
    ensures |bids| <= |msgs|
    ensures forall b :: b in bids ==> b.bidder == session.user
    decreases |msgs|
  {
    if msgs == [] then []
    else
      var m := msgs[|msgs| - 1];
      var earlier := BidsOf(session, msgs[..|msgs| - 1]);
      if m.msg.BidPlaced? && m.msg.data.itemId.Some? then
        earlier + [BidHistory.Bid(m.msg.data.itemId.value, m.msg.data.amount, session.user, m.at)]
      else earlier
  }

  /** A whole connection: the handshake, then each message in turn. A refused
      connection touches nothing and hears nothing but the refusal. `msgs` are
      the messages Socket.IO delivers, so they end at the first `Disconnect`
      (none is delivered after it; a `Disconnect` itself only logs). */
  function Serve(items: Store, h: Handshake, verify: string -> Option<Id>, msgs: seq<Timed>): (r: (Store, seq<Emit>))
    ensures Admit(h, verify).Failure? ==> r == (items, [])
    ensures r.0.Keys == items.Keys
    decreases |msgs|
  {
    match Admit(h, verify)
    case Failure(_) => (items, [])
    case Success(session) =>
      if msgs == [] then (items, [])
      else
        var (before, events) := Serve(items, h, verify, msgs[..|msgs| - 1]);
        var m := msgs[|msgs| - 1];
        var (after, more) := OnMessage(before, session, m.msg, m.at);
        (after, events + more)
  }

  /** An admitted connection leaves the store exactly as the service would
      after placing the session's bids in order, with the session as bidder. */
  lemma {:induction false} ServeIsBidHistory(items: Store, h: Handshake, verify: string -> Option<Id>, msgs: seq<Timed>)
    requires Admit(h, verify).Success?
    ensures Serve(items, h, verify, msgs).0 == BidHistory.Run(items, BidsOf(Admit(h, verify).value, msgs)).0
    decreases |msgs|
  {
    if msgs != [] {
      var session := Admit(h, verify).value;
      var prefix := msgs[..|msgs| - 1];
      ServeIsBidHistory(items, h, verify, prefix);
      var bids := BidsOf(session, msgs);
      var m := msgs[|msgs| - 1];
      if m.msg.BidPlaced? && m.msg.data.itemId.Some? {
        assert bids[..|bids| - 1] == BidsOf(session, prefix);
      }
    }
  }

  /** The `BID_PLACED` handler run against the item store in place: it
      emits what `HandleBidPlaced` says and leaves the store in its state. */
  method OnBidPlaced(store: ItemStore, session: Session, data: BidData, now: int) returns (events: seq<Emit>)
    modifies store
    ensures (store.items, events) == HandleBidPlaced(old(store.items), session, data, now)
  {
    if data.itemId.None? {
      return [ToSender(ErrorMessage(Message(ItemNotFound)))];
    }
    var id := data.itemId.value;
    var outcome := store.PlaceBid(id, data.amount, session.user, now);
    match outcome {
      case Success(updated) =>
        events := [ToAll(UpdateBid(id, updated.currentBid, session.user)),
                   ToSender(BidSuccess(id, updated.currentBid))];
      case Failure(e) =>
        events := [ToSender(ErrorMessage(Message(e)))];
    }
  }

  /** The Socket.IO server built over an HTTP server. */
  datatype Server = Server(httpServer: nat)

  const NotInitialized: string := "Socket.io not initialized!"

  /** The module-level `io` binding of src/socket.js. */
  class SocketModule {
    var io: Option<Server>

    constructor ()
      ensures io == None
    {
      io := None;
    }

    method InitSocket(httpServer: nat) returns (s: Server)
      modifies this
      ensures s == Server(httpServer) && io == Some(s)
    {
      s := Server(httpServer);
      io := Some(s);
    }

    method GetIo() returns (r: Result<Server, string>)
      ensures r.Failure? <==> io.None?
      ensures r.Failure? ==> r.error == NotInitialized
      ensures r.Success? ==> io == Some(r.value)
    {
      if io.None? {
        return Failure(NotInitialized);
      }
      return Success(io.value);
    }
  }

  /** `getIo` throws until `initSocket` has run, then returns its server. */
  method GetIoLifecycle(httpServer: nat) returns (before: Result<Server, string>, after: Result<Server, string>)
    ensures before == Failure(NotInitialized)
    ensures after == Success(Server(httpServer))
  {
    var m := new SocketModule();
    before := m.GetIo();
    var s := m.InitSocket(httpServer);
    after := m.GetIo();
  }
}
