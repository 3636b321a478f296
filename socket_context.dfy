/** The client's connection context (client/src/context/SocketContext.jsx):
    the clock-offset estimate from one timed round trip to the server, the
    `timeOffset` state it maintains, and the rule that a socket exists
    exactly when there is a token. Times are integer milliseconds; the
    offset is a real because the latency is halved. */
module SocketContext {
  import opened Wrappers
  import Socket

  /** `(end - start) / 2`. */
  function Latency(start: int, end: int): (l: real)
    ensures 2.0 * l == (end - start) as real
  {
    (end - start) as real / 2.0
  }

  /** `serverTime + latency - end`: the server clock's lead over the local clock,
      assuming the server stamped its time halfway through the round trip. */
  function ClockOffset(start: int, end: int, serverTime: int): (offset: real)
    ensures offset == serverTime as real - (start + end) as real / 2.0
    ensures start == end ==> offset == (serverTime - end) as real
  {
    serverTime as real + Latency(start, end) - end as real
  }

  /** If the server stamped its time at some local instant inside the round
      trip, the estimate is within half the round trip of the true offset. */
  lemma OffsetErrorBound(start: int, end: int, serverTime: int, stampedAt: real, trueOffset: real)
    requires start as real <= stampedAt <= end as real
    requires serverTime as real == stampedAt + trueOffset
    ensures -Latency(start, end) <= ClockOffset(start, end, serverTime) - trueOffset <= Latency(start, end)
  {
  }

  /** What one `syncTime` call observes: the two local readings and the
      server's timestamp, or a failed request. */
  datatype SyncResult = Synced(start: int, end: int, serverTime: int) | SyncFailed

  /** `useState(0)`. */
  const InitialOffset: real := 0.0

  /** One `syncTime`: a failure is caught and leaves the offset as it was. */
  function SyncTime(timeOffset: real, r: SyncResult): (next: real)
    ensures r.SyncFailed? ==> next == timeOffset
    ensures r.Synced? ==> next == ClockOffset(r.start, r.end, r.serverTime)
  {
    match r
    case Synced(start, end, serverTime) => ClockOffset(start, end, serverTime)
    case SyncFailed => timeOffset
  }

  /** The offset after a series of syncs starting from the initial state. */
  function OffsetAfter(results: seq<SyncResult>): (offset: real)
    ensures (forall i :: 0 <= i < |results| ==> results[i].SyncFailed?) ==> offset == InitialOffset
    ensures forall i ::
      (0 <= i < |results| && results[i].Synced? && (forall j :: i < j < |results| ==> results[j].SyncFailed?))
      ==> offset == ClockOffset(results[i].start, results[i].end, results[i].serverTime)
    decreases |results|
  {
    if results == [] then InitialOffset
    else SyncTime(OffsetAfter(results[..|results| - 1]), results[|results| - 1])
  }

  /** The socket created for a token; it authenticates with that token. */
  datatype ClientSocket = ClientSocket(authToken: string)

  /** The token effect: a truthy token gets a socket, anything else sets it to null. */
  function SocketFor(token: Option<string>): (s: Option<ClientSocket>)
    ensures s.Some? <==> Truthy(token)
    ensures s.Some? ==> s.value.authToken == token.value
  {
    if Truthy(token) then Some(ClientSocket(token.value)) else None
  }

  /** The handshake a client socket presents. */
  function HandshakeOf(s: ClientSocket): Socket.Handshake {
    Socket.Handshake(Some(Socket.Auth(Some(s.authToken))))
  }

  /** A client socket is admitted exactly when the server verifies its token. */
  lemma ClientSocketAdmitted(token: Option<string>, verify: string -> Option<string>)
    requires SocketFor(token).Some?
    ensures Socket.Admit(HandshakeOf(SocketFor(token).value), verify).Success? <==> verify(token.value).Some?
  {
  }
}
