/**
 How far a phone's idea of server time can be off. `local` and `server` are what the two clocks show at
 true time zero; neither drifts, so at true time t they show t more.
 */
module ClockSkew {
  import opened Domain

  /** Division that truncates toward zero. */
  function Truncated(a: int, b: int): int
    requires b > 0
  {
    if a >= 0 then a / b else -((-a) / b)
  }

  function Midpoint(sentAt: Time, receivedAt: Time): Time {
    sentAt + Truncated(receivedAt - sentAt, 2)
  }

  /** The offset the sync engine computes from one request. */
  function MeasuredOffset(sentAt: Time, receivedAt: Time, serverTime: Time): Time {
    serverTime - Midpoint(sentAt, receivedAt)
  }

  const MILLISECOND: Time := 1000

  /** What the next start of the application reads back: whole milliseconds. */
  function PersistedOffset(offset: Time): Time {
    Truncated(offset, MILLISECOND) * MILLISECOND
  }

  function Abs(x: int): int {
    if x < 0 then -x else x
  }

  /** Half a round trip, rounded up. */
  function HalfTrip(sent: Time, received: Time): Time {
    (received - sent + 1) / 2
  }

  /** If the server reads its clock between send and receive, the error is at most half the round trip. */
  lemma OffsetBound(local: Time, server: Time, sent: Time, sampled: Time, received: Time)
    requires sent <= sampled <= received
    ensures Abs(MeasuredOffset(local + sent, local + received, server + sampled) - (server - local)) <=
            HalfTrip(sent, received)
  {
  }

  /** The bound is met: a reply that takes no time on the way back, or a request that takes none. */
  lemma OffsetBoundIsTight(local: Time, server: Time, sent: Time, received: Time)
    requires sent <= received
    ensures MeasuredOffset(local + sent, local + received, server + received) - (server - local) ==
            HalfTrip(sent, received)
  {
  }

  /** Storing the offset costs less than a millisecond. */
  lemma PersistedBound(offset: Time)
    ensures Abs(PersistedOffset(offset) - offset) < MILLISECOND
  {
  }

  lemma RemainingIsLipschitz(row: Row, a: Time, b: Time)
    ensures Abs(RemainingAt(row, a) - RemainingAt(row, b)) <= Abs(a - b)
  {
  }

  /** One phone: its clock, its last request, and whether it has restarted since. */
  datatype Device = Device(local: Time, sent: Time, sampled: Time, received: Time, restarted: bool)

  predicate Measured(d: Device) {
    d.sent <= d.sampled <= d.received
  }

  function OffsetOf(d: Device, server: Time): Time {
    var offset := MeasuredOffset(d.local + d.sent, d.local + d.received, server + d.sampled);
    if d.restarted then PersistedOffset(offset) else offset
  }

  /** The time a phone believes the server shows, at true time t. */
  function AuthoritativeNow(d: Device, server: Time, t: Time): Time {
    d.local + t + OffsetOf(d, server)
  }

  function Bound(d: Device): Time {
    HalfTrip(d.sent, d.received) + if d.restarted then MILLISECOND else 0
  }

  lemma BelievedTime(d: Device, server: Time, t: Time)
    requires Measured(d)
    ensures Abs(AuthoritativeNow(d, server, t) - (server + t)) <= Bound(d)
  {
    OffsetBound(d.local, server, d.sent, d.sampled, d.received);
    var offset := MeasuredOffset(d.local + d.sent, d.local + d.received, server + d.sampled);
    PersistedBound(offset);
    hide MeasuredOffset, PersistedOffset;
  }

  /** Two phones that show the same row at the same moment differ by at most the sum of their bounds. */
  lemma TwoPhonesAgree(a: Device, b: Device, server: Time, t: Time, row: Row)
    requires Measured(a) && Measured(b)
    ensures Abs(RemainingAt(row, AuthoritativeNow(a, server, t)) - RemainingAt(row, AuthoritativeNow(b, server, t)))
            <= Bound(a) + Bound(b)
  {
    BelievedTime(a, server, t);
    BelievedTime(b, server, t);
    RemainingIsLipschitz(row, AuthoritativeNow(a, server, t), AuthoritativeNow(b, server, t));
    hide AuthoritativeNow, Bound, RemainingAt;
  }
}
