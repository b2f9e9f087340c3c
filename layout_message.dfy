/** The flooding message exchanged by the layout computations: a payload vertex, a
    time-to-live, a coordinate pair, a weight and a sender id. The message's setters are
    modelled as functions that return the updated message. */
module Messages {
  import opened Common

  datatype LayoutMessage = LayoutMessage(payload: LayeredId, ttl: int, value: Point, weight: real, senderId: int)

  /** The weight of a message built by a constructor that does not set it. The weight field
      belongs to the message superclass, which is not part of this model; it is taken to start
      at 0. */
  const UnsetWeight: real := 0.0
  /** The sender id of a message that was never given one: the field's default. */
  const UnsetSender: int := 0

  /** The two-argument constructor: a message with time-to-live 0. */
  function NewMessage(payload: LayeredId, coords: Point): (m: LayoutMessage)
    ensures m.payload == payload && m.value == coords && m.ttl == 0
    ensures m.weight == UnsetWeight && m.senderId == UnsetSender
  {
    LayoutMessage(payload, 0, coords, UnsetWeight, UnsetSender)
  }

  /** The three-argument constructor: a message with the given time-to-live. */
  function NewMessageWithTtl(payload: LayeredId, ttl: int, coords: Point): (m: LayoutMessage)
    ensures m.payload == payload && m.value == coords && m.ttl == ttl
    ensures m.weight == UnsetWeight && m.senderId == UnsetSender
  {
    LayoutMessage(payload, ttl, coords, UnsetWeight, UnsetSender)
  }

  /** The message forwarded one hop further: one less time-to-live, the same payload,
      coordinates and weight; the sender id is not carried over. */
  function Propagate(m: LayoutMessage): (r: LayoutMessage)
    ensures r.ttl == m.ttl - 1
    ensures r.payload == m.payload && r.value == m.value && r.weight == m.weight
    ensures r.senderId == UnsetSender
  {
    var built := NewMessageWithTtl(m.payload, m.ttl - 1, m.value);
    built.(weight := m.weight)
  }

  /** The message forwarded for the last time: built with the ttl-0 constructor, keeping the
      payload, the coordinates and the weight. */
  function PropagateAndDie(m: LayoutMessage): (r: LayoutMessage)
    ensures r.ttl == 0
    ensures r.payload == m.payload && r.value == m.value && r.weight == m.weight
    ensures r.senderId == UnsetSender
  {
    var built := NewMessage(m.payload, m.value);
    built.(weight := m.weight)
  }

  /** A copy keeps payload, time-to-live and coordinates but neither weight nor sender id. */
  function Copy(m: LayoutMessage): (r: LayoutMessage)
    ensures r.payload == m.payload && r.ttl == m.ttl && r.value == m.value
    ensures r.weight == UnsetWeight && r.senderId == UnsetSender
  {
    NewMessageWithTtl(m.payload, m.ttl, m.value)
  }

  function SetSenderId(m: LayoutMessage, s: int): (r: LayoutMessage)
    ensures GetSenderId(r) == s
    ensures r.payload == m.payload && r.ttl == m.ttl && r.value == m.value && r.weight == m.weight
  {
    m.(senderId := s)
  }

  function GetSenderId(m: LayoutMessage): int
  {
    m.senderId
  }

  /** Adds an edge weight to the message weight. */
  function AddToWeight(m: LayoutMessage, w: int): (r: LayoutMessage)
    ensures r.weight == m.weight + w as real
    ensures r.payload == m.payload && r.ttl == m.ttl && r.value == m.value && r.senderId == m.senderId
  {
    m.(weight := m.weight + w as real)
  }

  /** The part of the message this class writes: payload, both coordinates, sender id. */
  function SpecificWrite(m: LayoutMessage): (out: seq<Token>)
    ensures |out| == 4
  {
    [TId(m.payload), TDouble(m.value.x), TDouble(m.value.y), TLong(m.senderId)]
  }

  /** Reads payload, both coordinates and sender id, in that order, into `into`; the
      time-to-live and the weight belong to the message's other fields and are kept. A stream
      that ends early or holds a different item is an error. */
  function SpecificRead(into: LayoutMessage, input: seq<Token>): (r: Option<(LayoutMessage, seq<Token>)>)
    ensures r.Some? ==> r.value.0.ttl == into.ttl && r.value.0.weight == into.weight
    ensures r.Some? ==> |r.value.1| == |input| - 4 && r.value.1 == input[4..]
    ensures r.Some? <==> |input| >= 4 && input[0].TId? && input[1].TDouble? && input[2].TDouble? && input[3].TLong?
  {
    if |input| < 4 then None
    else match (input[0], input[1], input[2], input[3])
      case (TId(p), TDouble(x), TDouble(y), TLong(s)) =>
        Some((into.(payload := p, value := Point(x, y), senderId := s), input[4..]))
      case _ => None
  }

  /** Writing a message and reading it back restores payload, coordinates and sender id, and
      leaves the rest of the stream for the next reader. */
  lemma SpecificRoundTrip(m: LayoutMessage, into: LayoutMessage, rest: seq<Token>)
    ensures SpecificRead(into, SpecificWrite(m) + rest) ==
            Some((into.(payload := m.payload, value := m.value, senderId := m.senderId), rest))
  {
    var s := SpecificWrite(m) + rest;
    assert s[4..] == rest;
  }

  /** The message after `k` forwarding hops. */
  function PropagateTimes(m: LayoutMessage, k: nat): LayoutMessage
  {
    if k == 0 then m else Propagate(PropagateTimes(m, k - 1))
  }

  /** Forwarding `k` times spends exactly `k` units of time-to-live and keeps the payload,
      the coordinates and the weight; ending the chain with a final hop always yields ttl 0. */
  lemma {:induction false} PropagateChain(m: LayoutMessage, k: nat)
    ensures PropagateTimes(m, k).ttl == m.ttl - k
    ensures PropagateTimes(m, k).payload == m.payload
    ensures PropagateTimes(m, k).value == m.value
    ensures PropagateTimes(m, k).weight == m.weight
    ensures PropagateAndDie(PropagateTimes(m, k)) == PropagateAndDie(m)
  {
    if k > 0 {
      PropagateChain(m, k - 1);
    }
  }
}
