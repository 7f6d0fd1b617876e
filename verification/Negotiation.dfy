/**
 Channel binding and negotiated limits (`endpoint.go`, `session.go`): whatever
 one endpoint emits, the other one accepts.

 One direction of one connection. The sender knows the limits its peer has
 advertised; streams and datagrams arrive in any order, datagrams also
 repeatedly or never. Opening a stream and sending a frame or a datagram may
 fail; so may writing a channel's stream header, which is where it can go wrong.
 */
module Negotiation {
  import opened Prelude
  import opened Varint
  import opened Frames

  datatype Delivery = Reliable | Unreliable | Sequenced

  /** The advertised limits that matter for events; `normalizeLimits` makes each positive. */
  datatype Limits = Limits(messageBytes: int64, datagramBytes: int64, reliableChannels: int, datagramChannels: int)

  type Bindings = map<nat, Delivery>

  // ----------------------------------------------------------------- binding

  function MinimumAdvertised(local: int, peer: int): int {
    if peer <= 0 then local else if local <= peer then local else peer
  }

  predicate SameSide(a: Delivery, b: Delivery) {
    (a == Reliable) == (b == Reliable)
  }

  /** The channels of `m` in the class of `delivery`: reliable ones, or those carried by datagrams. */
  function ClassOf(m: Bindings, delivery: Delivery): set<nat> {
    set c | c in m && SameSide(m[c], delivery)
  }

  function ChannelLimit(l: Limits, delivery: Delivery): int {
    if delivery == Reliable then l.reliableChannels else l.datagramChannels
  }

  function OutboundLimit(local: Limits, peer: Limits, delivery: Delivery): int {
    MinimumAdvertised(ChannelLimit(local, delivery), ChannelLimit(peer, delivery))
  }

  /** A channel keeps its first delivery mode; a new one needs room in its class. */
  function BoundOut(m: Bindings, c: nat, delivery: Delivery, limit: int): Option<Bindings> {
    if c in m then if m[c] == delivery then Some(m) else None
    else if |ClassOf(m, delivery)| >= limit then None
    else Some(m[c := delivery])
  }

  /** As `BoundOut`, but a second stream for a reliable channel is refused. */
  function BoundIn(m: Bindings, c: nat, delivery: Delivery, limit: int): Option<Bindings> {
    if c in m then if m[c] == delivery && delivery != Reliable then Some(m) else None
    else if |ClassOf(m, delivery)| >= limit then None
    else Some(m[c := delivery])
  }

  method CountClass(m: Bindings, delivery: Delivery) returns (count: nat)
    ensures count == |ClassOf(m, delivery)|
  {
    hide SameSide;
    count := 0;
    var left := m.Keys;
    ghost var seen: set<nat> := {};
    while left != {}
      invariant left <= m.Keys
      invariant seen == ClassOf(m, delivery) - left
      invariant count == |seen|
      decreases |left|
    {
      var c :| c in left;
      left := left - {c};
      if SameSide(m[c], delivery) {
        count := count + 1;
        seen := seen + {c};
      }
    }
    assert seen == ClassOf(m, delivery);
  }

  /** The binding maps of a `connectionOperations`. */
  class Channels {
    const local: Limits
    const peer: Limits
    var outbound: Bindings
    var inbound: Bindings

    constructor (local: Limits, peer: Limits)
      ensures this.local == local && this.peer == peer && outbound == map[] && inbound == map[]
    {
      this.local, this.peer, outbound, inbound := local, peer, map[], map[];
    }

    method BindOutbound(c: nat, delivery: Delivery) returns (ok: bool)
      modifies this`outbound
      ensures var r := BoundOut(old(outbound), c, delivery, OutboundLimit(local, peer, delivery));
              ok == r.Some? && outbound == if ok then r.value else old(outbound)
    {
      if c in outbound {
        return outbound[c] == delivery;
      }
      var limit := MinimumAdvertised(local.datagramChannels, peer.datagramChannels);
      if delivery == Reliable {
        limit := MinimumAdvertised(local.reliableChannels, peer.reliableChannels);
      }
      var count := CountClass(outbound, delivery);
      if count >= limit {
        return false;
      }
      outbound := outbound[c := delivery];
      return true;
    }

    method BindInbound(c: nat, delivery: Delivery) returns (ok: bool)
      modifies this`inbound
      ensures var r := BoundIn(old(inbound), c, delivery, ChannelLimit(local, delivery));
              ok == r.Some? && inbound == if ok then r.value else old(inbound)
    {
      if c in inbound {
        return inbound[c] == delivery && delivery != Reliable;
      }
      var limit := local.datagramChannels;
      if delivery == Reliable {
        limit := local.reliableChannels;
      }
      var count := CountClass(inbound, delivery);
      if count >= limit {
        return false;
      }
      inbound := inbound[c := delivery];
      return true;
    }
  }

  // ----------------------------------------------------------------- machine

  /** A unidirectional stream: the channel of its header and the events written after it. */
  datatype Stream = Stream(channel: nat, events: seq<Event>)

  datatype State = State(
    sender: Limits,
    receiver: Limits,
    outbound: Bindings,
    sequences: map<nat, nat>,
    carriers: map<nat, nat>,        // the sender's stream of a channel
    streams: seq<Stream>,
    datagrams: seq<Bytes>,        // everything ever sent
    inbound: Bindings,
    cursors: map<nat, nat>,       // streams accepted, with the number of events read
    refused: bool)                // the receiver has refused something

  datatype Step =
    | Send(channel: nat, typ: nat, payload: Bytes, delivery: Delivery, opens: bool, writes: bool)
    | FailHeader(channel: nat, typ: nat, payload: Bytes)   // a write reported failed whose bytes got through
    | Accept(i: nat)
    | ReadEvent(i: nat)
    | Receive(d: nat)

  function MessageLimit(s: State): int64 {
    MinimumAdvertised(s.sender.messageBytes, s.receiver.messageBytes)
  }

  function DatagramLimit(s: State): int64 {
    MinimumAdvertised(s.sender.datagramBytes, s.receiver.datagramBytes)
  }

  /** What a channel's stream carries on the wire. */
  function StreamBytes(stream: Stream, limit: int64): Bytes {
    ChannelStream(stream.channel, stream.events, limit)
  }

  function SendReliable(s: State, event: Event, opens: bool, writes: bool): (r: State)
    ensures r == s.(outbound := r.outbound, carriers := r.carriers, streams := r.streams)
  {
    var bound := BoundOut(s.outbound, event.channel, Reliable, OutboundLimit(s.sender, s.receiver, Reliable));
    if EncodeReliableEvent(event, MessageLimit(s)).Err? || bound.None? then s
    else if event.channel !in s.carriers && !opens then s.(outbound := bound.value)
    else
      var s' := if event.channel in s.carriers then s.(outbound := bound.value)
                else s.(outbound := bound.value, carriers := s.carriers[event.channel := |s.streams|],
                        streams := s.streams + [Stream(event.channel, [])]);
      var i := s'.carriers[event.channel];
      if !writes || i >= |s'.streams| then s'
      else s'.(streams := s'.streams[i := s'.streams[i].(events := s'.streams[i].events + [event])])
  }

  /** The stream is aborted and not remembered, so the next `send` opens another. */
  function SendAborted(s: State, event: Event): (r: State)
    ensures r == s.(outbound := r.outbound, streams := r.streams)
  {
    var bound := BoundOut(s.outbound, event.channel, Reliable, OutboundLimit(s.sender, s.receiver, Reliable));
    if EncodeReliableEvent(event, MessageLimit(s)).Err? || bound.None? || event.channel in s.carriers then s
    else s.(outbound := bound.value, streams := s.streams + [Stream(event.channel, [])])
  }

  function DatagramEvent(s: State, channel: nat, typ: nat, payload: Bytes, delivery: Delivery): Event {
    if delivery == Sequenced
    then Event(SEQUENCED_KIND, channel, typ, (if channel in s.sequences then s.sequences[channel] else 0) + 1, payload)
    else Event(UNRELIABLE_KIND, channel, typ, 0, payload)
  }

  /** The binding and the sequence number are used up even when the datagram proves too large. */
  function SendDatagram(s: State, channel: nat, typ: nat, payload: Bytes, delivery: Delivery, writes: bool): (r: State)
    ensures r == s.(outbound := r.outbound, sequences := r.sequences, datagrams := r.datagrams)
  {
    var bound := BoundOut(s.outbound, channel, delivery, OutboundLimit(s.sender, s.receiver, delivery));
    if bound.None? then s
    else
      var event := DatagramEvent(s, channel, typ, payload, delivery);
      var s' := s.(outbound := bound.value,
                   sequences := if delivery == Sequenced then s.sequences[channel := event.sequence] else s.sequences);
      var encoded := EncodeDatagram(event, DatagramLimit(s));
      if encoded.Err? || !writes then s' else s'.(datagrams := s.datagrams + [encoded.value])
  }

  /** `readReliableStream` up to the binding of its channel. */
  function Accepted(s: State, i: nat): (r: State)
    requires i < |s.streams|
    ensures r == s.(inbound := r.inbound, cursors := r.cursors, refused := r.refused)
  {
    var header := ParseVarints(StreamBytes(s.streams[i], MessageLimit(s)), 2, EndOfStream);
    if header.Err? || header.value.0[0] != RELIABLE_EVENT_KIND || header.value.0[1] > MAX_CHANNEL
    then s.(refused := true)
    else
      var bound := BoundIn(s.inbound, header.value.0[1], Reliable, s.receiver.reliableChannels);
      if bound.None? then s.(refused := true) else s.(inbound := bound.value, cursors := s.cursors[i := 0])
  }

  /** The next whole frame of an accepted stream. */
  function ReadNext(s: State, i: nat): (r: State)
    requires i in s.cursors && i < |s.streams| && s.cursors[i] < |s.streams[i].events|
    ensures r == s.(cursors := r.cursors, refused := r.refused)
  {
    var read := StreamedEvent(Framed(s.streams[i].events[s.cursors[i]..], MessageLimit(s)), s.receiver.messageBytes);
    if read.Err? || read.value.0.channel != s.streams[i].channel then s.(refused := true)
    else s.(cursors := s.cursors[i := s.cursors[i] + 1])
  }

  function Received(s: State, d: nat): (r: State)
    requires d < |s.datagrams|
    ensures r == s.(inbound := r.inbound, refused := r.refused)
  {
    var decoded := DecodeDatagram(s.datagrams[d], s.receiver.datagramBytes);
    if decoded.Err? then s.(refused := true)
    else
      var delivery := if decoded.value.kind == SEQUENCED_KIND then Sequenced else Unreliable;
      var bound := BoundIn(s.inbound, decoded.value.channel, delivery, s.receiver.datagramChannels);
      if bound.None? then s.(refused := true) else s.(inbound := bound.value)
  }

  predicate Enabled(s: State, step: Step) {
    match step
    case Send(channel, _, _, _, _, _) => channel <= MAX_CHANNEL
    case FailHeader(channel, _, _) => channel <= MAX_CHANNEL
    case Accept(i) => i < |s.streams| && i !in s.cursors
    case ReadEvent(i) => i in s.cursors && i < |s.streams| && s.cursors[i] < |s.streams[i].events|
    case Receive(d) => d < |s.datagrams|
  }

  function Next(s: State, step: Step): State
    requires Enabled(s, step)
  {
    match step
    case Send(channel, typ, payload, delivery, opens, writes) =>
      if delivery == Reliable then SendReliable(s, Event(RELIABLE_EVENT_KIND, channel, typ, 0, payload), opens, writes)
      else SendDatagram(s, channel, typ, payload, delivery, writes)
    case FailHeader(channel, typ, payload) => SendAborted(s, Event(RELIABLE_EVENT_KIND, channel, typ, 0, payload))
    case Accept(i) => Accepted(s, i)
    case ReadEvent(i) => ReadNext(s, i)
    case Receive(d) => Received(s, d)
  }

  predicate Normal(l: Limits) {
    && 1 <= l.messageBytes < 0x8000_0000_0000_0000 - 32
    && l.datagramBytes >= 1 && l.reliableChannels >= 1 && l.datagramChannels >= 1
  }

  predicate Init(s: State) {
    && s == State(s.sender, s.receiver, map[], map[], map[], [], [], map[], map[], false)
    && Normal(s.sender) && Normal(s.receiver)
  }

  ghost predicate Run(states: seq<State>, steps: seq<Step>) {
    && |states| == |steps| + 1 && Init(states[0])
    && forall i :: 0 <= i < |steps| ==> Enabled(states[i], steps[i]) && states[i + 1] == Next(states[i], steps[i])
  }

  /** How often a header write was reported failed although its bytes got through. */
  function Failures(steps: seq<Step>): nat {
    if steps == [] then 0 else (if steps[0].FailHeader? then 1 else 0) + Failures(steps[1..])
  }

  // --------------------------------------------------------------- invariant

  ghost predicate Roomy(outbound: Bindings, sender: Limits, receiver: Limits) {
    && Normal(sender) && Normal(receiver)
    && |ClassOf(outbound, Reliable)| <= receiver.reliableChannels
    && |ClassOf(outbound, Unreliable)| <= receiver.datagramChannels
  }

  /** Each stream belongs to one reliable channel, and each channel to one stream. */
  ghost predicate OneStreamEach(outbound: Bindings, carriers: map<nat, nat>, streams: seq<Stream>) {
    && (forall i :: 0 <= i < |streams| ==> streams[i].channel in carriers && carriers[streams[i].channel] == i)
    && (forall c :: c in carriers ==>
          && carriers[c] < |streams| && streams[carriers[c]].channel == c && c <= MAX_CHANNEL
          && c in outbound && outbound[c] == Reliable)
  }

  ghost predicate Written(streams: seq<Stream>, limit: int64) {
    forall i :: 0 <= i < |streams| ==> Sendable(streams[i].events, streams[i].channel, limit)
  }

  /** A datagram the sender may have sent, on a channel it has bound accordingly. */
  ghost predicate Genuine(b: Bytes, outbound: Bindings, limit: int64) {
    DecodeDatagram(b, limit).Ok? && var e := DecodeDatagram(b, limit).value;
      e.channel in outbound && outbound[e.channel] == if e.kind == SEQUENCED_KIND then Sequenced else Unreliable
  }

  ghost predicate AllGenuine(datagrams: seq<Bytes>, outbound: Bindings, limit: int64) {
    forall d :: 0 <= d < |datagrams| ==> Genuine(datagrams[d], outbound, limit)
  }

  /** The receiver has bound no channel the sender has not, and each reliable one by accepting its stream. */
  ghost predicate Follows(inbound: Bindings, outbound: Bindings, carriers: map<nat, nat>, cursors: map<nat, nat>) {
    forall c :: c in inbound ==>
      && c in outbound && inbound[c] == outbound[c]
      && (inbound[c] == Reliable ==> c in carriers && carriers[c] in cursors)
  }

  ghost predicate Inv(s: State) {
    && Roomy(s.outbound, s.sender, s.receiver)
    && OneStreamEach(s.outbound, s.carriers, s.streams)
    && Written(s.streams, MessageLimit(s))
    && AllGenuine(s.datagrams, s.outbound, DatagramLimit(s))
    && Follows(s.inbound, s.outbound, s.carriers, s.cursors)
    && !s.refused
  }

  /** A binding the sender has made and the receiver has not finds room at the receiver. */
  lemma RoomForIt(inbound: Bindings, outbound: Bindings, c: nat, delivery: Delivery)
    requires forall x :: x in inbound ==> x in outbound && inbound[x] == outbound[x]
    requires c in outbound && outbound[c] == delivery && c !in inbound
    ensures |ClassOf(inbound, delivery)| < |ClassOf(outbound, delivery)|
  {
    var theirs, ours := ClassOf(inbound, delivery), ClassOf(outbound, delivery);
    assert theirs + {c} <= ours && theirs * {c} == {};
    SubsetSize(theirs + {c}, ours);
  }

  /** Binding keeps every earlier binding and stays within what the peer admits. */
  lemma BoundOutKeeps(outbound: Bindings, sender: Limits, receiver: Limits, c: nat, delivery: Delivery)
    requires Roomy(outbound, sender, receiver)
    ensures var r := BoundOut(outbound, c, delivery, OutboundLimit(sender, receiver, delivery));
            r.Some? ==>
              && Roomy(r.value, sender, receiver) && c in r.value && r.value[c] == delivery
              && (forall x :: x in outbound ==> x in r.value && r.value[x] == outbound[x])
  {
    hide ClassOf;
    if c !in outbound {
      ClassGrows(outbound, c, delivery, Reliable);
      ClassGrows(outbound, c, delivery, Unreliable);
      SameClass(outbound);
    }
  }

  lemma ClassGrows(m: Bindings, c: nat, delivery: Delivery, of: Delivery)
    requires c !in m
    ensures |ClassOf(m[c := delivery], of)| == |ClassOf(m, of)| + if SameSide(delivery, of) then 1 else 0
  {
    hide SameSide;
    var base, later := ClassOf(m, of), ClassOf(m[c := delivery], of);
    forall x ensures x in later <==> x in base || (x == c && SameSide(delivery, of)) { }
    hide ClassOf;
    assert c !in base;
    if SameSide(delivery, of) {
      assert later == base + {c} && base * {c} == {};
    } else {
      assert later == base;
    }
  }

  /** Later bindings leave the facts about earlier ones alone. */
  lemma BindingsGrow(s: State, later: Bindings)
    requires Inv(s) && Roomy(later, s.sender, s.receiver)
    requires forall x :: x in s.outbound ==> x in later && later[x] == s.outbound[x]
    ensures Inv(s.(outbound := later))
  {
    hide Roomy, Written, DecodeDatagram;
    forall d | 0 <= d < |s.datagrams| ensures Genuine(s.datagrams[d], later, DatagramLimit(s)) {
      assert Genuine(s.datagrams[d], s.outbound, DatagramLimit(s));
    }
  }

  lemma SendDatagramInv(s: State, channel: nat, typ: nat, payload: Bytes, delivery: Delivery, writes: bool)
    requires Inv(s) && channel <= MAX_CHANNEL && delivery != Reliable
    ensures Inv(SendDatagram(s, channel, typ, payload, delivery, writes))
  {
    var bound := BoundOut(s.outbound, channel, delivery, OutboundLimit(s.sender, s.receiver, delivery));
    BoundOutKeeps(s.outbound, s.sender, s.receiver, channel, delivery);
    hide BoundOut, EncodeDatagram, AllGenuine, Roomy, OneStreamEach, Written, Follows, ClassOf;
    if bound.Some? {
      BindingsGrow(s, bound.value);
      var event := DatagramEvent(s, channel, typ, payload, delivery);
      var encoded := EncodeDatagram(event, DatagramLimit(s));
      if encoded.Ok? {
        SentIsGenuine(s.datagrams, event, encoded.value, bound.value, DatagramLimit(s));
      }
    }
  }

  lemma SentIsGenuine(datagrams: seq<Bytes>, event: Event, b: Bytes, outbound: Bindings, limit: int64)
    requires AllGenuine(datagrams, outbound, limit) && EncodeDatagram(event, limit) == Ok(b)
    requires CanonicalDatagram(event) && event.channel in outbound
    requires outbound[event.channel] == if event.kind == SEQUENCED_KIND then Sequenced else Unreliable
    ensures AllGenuine(datagrams + [b], outbound, limit)
  {
    hide EncodeDatagram, DecodeDatagram;
    DatagramBijection(event, b, limit);
  }

  lemma SendReliableInv(s: State, event: Event, opens: bool, writes: bool)
    requires Inv(s) && event.kind == RELIABLE_EVENT_KIND && event.sequence == 0 && event.channel <= MAX_CHANNEL
    ensures Inv(SendReliable(s, event, opens, writes))
  {
    var bound := BoundOut(s.outbound, event.channel, Reliable, OutboundLimit(s.sender, s.receiver, Reliable));
    BoundOutKeeps(s.outbound, s.sender, s.receiver, event.channel, Reliable);
    hide BoundOut, EncodeReliableEvent, Inv;
    if EncodeReliableEvent(event, MessageLimit(s)).Ok? && bound.Some? {
      BindingsGrow(s, bound.value);
      var s' := s.(outbound := bound.value);
      if event.channel !in s.carriers && opens {
        OpenInv(s', event.channel);
        s' := s'.(carriers := s.carriers[event.channel := |s.streams|],
                  streams := s.streams + [Stream(event.channel, [])]);
      }
      if event.channel in s'.carriers && writes {
        WriteInv(s', event);
      }
    }
  }

  lemma OpenInv(s: State, channel: nat)
    requires Inv(s) && channel !in s.carriers && channel <= MAX_CHANNEL && channel in s.outbound
    requires s.outbound[channel] == Reliable
    ensures Inv(s.(carriers := s.carriers[channel := |s.streams|], streams := s.streams + [Stream(channel, [])]))
  {
    hide Roomy, AllGenuine;
  }

  lemma WriteInv(s: State, event: Event)
    requires Inv(s) && event.channel in s.carriers && event.kind == RELIABLE_EVENT_KIND && event.sequence == 0
    requires EncodeReliableEvent(event, MessageLimit(s)).Ok?
    ensures var i := s.carriers[event.channel];
            i < |s.streams|
            && Inv(s.(streams := s.streams[i := s.streams[i].(events := s.streams[i].events + [event])]))
  {
    hide Roomy, AllGenuine, Follows, EncodeReliableEvent;
    var i := s.carriers[event.channel];
    assert Sendable(s.streams[i].events, s.streams[i].channel, MessageLimit(s));
  }

  /** The header names the channel, so a stream is accepted once its channel finds room. */
  lemma HeaderParses(stream: Stream, limit: int64)
    requires stream.channel <= MAX_CHANNEL
    ensures var r := ParseVarints(StreamBytes(stream, limit), 2, EndOfStream);
            r.Ok? && r.value.0 == [RELIABLE_EVENT_KIND, stream.channel]
  {
    VarintsRoundTrip([RELIABLE_EVENT_KIND, stream.channel], Framed(stream.events, limit), EndOfStream);
  }

  lemma AcceptInv(s: State, i: nat)
    requires Inv(s) && Enabled(s, Accept(i))
    ensures Inv(Accepted(s, i))
  {
    hide AllGenuine, Written, StreamBytes, ParseVarints, ClassOf;
    var c := s.streams[i].channel;
    HeaderParses(s.streams[i], MessageLimit(s));
    assert c !in s.inbound;
    RoomForIt(s.inbound, s.outbound, c, Reliable);
  }

  lemma ReadInv(s: State, i: nat)
    requires Inv(s) && Enabled(s, ReadEvent(i))
    ensures Inv(ReadNext(s, i))
  {
    hide AllGenuine, Roomy, StreamedEvent, EncodeReliableEvent;
    var events := s.streams[i].events[s.cursors[i]..];
    assert Sendable(s.streams[i].events, s.streams[i].channel, MessageLimit(s));
    var frame := EncodeReliableEvent(events[0], MessageLimit(s)).value;
    LimitsAgree(s);
    ReliableRoundTrip(events[0], MessageLimit(s), s.receiver.messageBytes, frame, Framed(events[1..], MessageLimit(s)));
  }

  lemma LimitsAgree(s: State)
    requires Roomy(s.outbound, s.sender, s.receiver)
    ensures MessageLimit(s) <= s.receiver.messageBytes && DatagramLimit(s) <= s.receiver.datagramBytes
  {
  }

  /** A datagram within the sender's limit is within any larger one and means the same there. */
  lemma DatagramWidens(b: Bytes, limit: int64, wider: int64)
    requires DecodeDatagram(b, limit).Ok? && limit <= wider
    ensures DecodeDatagram(b, wider) == DecodeDatagram(b, limit)
  {
  }

  lemma ReceiveInv(s: State, d: nat)
    requires Inv(s) && Enabled(s, Receive(d))
    ensures Inv(Received(s, d))
  {
    hide DecodeDatagram, BoundIn, Written, Follows, OneStreamEach, Roomy;
    var b := s.datagrams[d];
    assert Genuine(b, s.outbound, DatagramLimit(s));
    LimitsAgree(s);
    DatagramWidens(b, DatagramLimit(s), s.receiver.datagramBytes);
    BoundInFollows(s, DecodeDatagram(b, DatagramLimit(s)).value.channel);
  }

  /** A datagram channel the sender has bound can be bound by the receiver, now or again. */
  lemma BoundInFollows(s: State, c: nat)
    requires Roomy(s.outbound, s.sender, s.receiver) && Follows(s.inbound, s.outbound, s.carriers, s.cursors)
    requires c in s.outbound && s.outbound[c] != Reliable
    ensures var r := BoundIn(s.inbound, c, s.outbound[c], s.receiver.datagramChannels);
            r.Some? && Follows(r.value, s.outbound, s.carriers, s.cursors)
  {
    hide ClassOf;
    SameClass(s.outbound);
    if c !in s.inbound {
      RoomForIt(s.inbound, s.outbound, c, s.outbound[c]);
    }
  }

  lemma SameClass(m: Bindings)
    ensures ClassOf(m, Sequenced) == ClassOf(m, Unreliable)
  {
  }

  lemma InvStep(s: State, step: Step)
    requires Inv(s) && Enabled(s, step) && !step.FailHeader?
    ensures Inv(Next(s, step))
  {
    hide Inv;
    match step
    case Send(channel, typ, payload, delivery, opens, writes) =>
      if delivery == Reliable {
        SendReliableInv(s, Event(RELIABLE_EVENT_KIND, channel, typ, 0, payload), opens, writes);
      } else {
        SendDatagramInv(s, channel, typ, payload, delivery, writes);
      }
    case Accept(i) => AcceptInv(s, i);
    case ReadEvent(i) => ReadInv(s, i);
    case Receive(d) => ReceiveInv(s, d);
  }

  lemma {:induction false} InvRun(states: seq<State>, steps: seq<Step>, n: nat)
    requires Run(states, steps) && n <= |steps| && Failures(steps) == 0
    ensures Inv(states[n])
  {
    hide Next, Enabled;
    if n > 0 {
      InvRun(states, steps, n - 1);
      NoFailure(steps, n - 1);
      assert states[n - 1 + 1] == Next(states[n - 1], steps[n - 1]);
      InvStep(states[n - 1], steps[n - 1]);
    }
  }

  // ----------------------------------------------------------------- theorems

  lemma {:induction false} NoFailure(steps: seq<Step>, i: nat)
    requires Failures(steps) == 0 && i < |steps|
    ensures !steps[i].FailHeader?
  {
    if i > 0 {
      NoFailure(steps[1..], i - 1);
    }
  }

  /** Negotiated compatibility: as long as header writes succeed, for any calls of
      `send`, any failures to open a stream or to send and any arrival order, loss and
      repetition, the receiver refuses nothing: every frame and datagram passes its framing checks and every
      stream and channel its binding. Its bindings are among the sender's. */
  lemma NothingIsRefused(states: seq<State>, steps: seq<Step>, n: nat)
    requires Run(states, steps) && n <= |steps| && Failures(steps) == 0
    ensures !states[n].refused
    ensures forall c :: c in states[n].inbound ==>
              c in states[n].outbound && states[n].inbound[c] == states[n].outbound[c]
    ensures |ClassOf(states[n].outbound, Reliable)| <= states[n].receiver.reliableChannels
    ensures |ClassOf(states[n].outbound, Unreliable)| <= states[n].receiver.datagramChannels
    ensures var streams := states[n].streams;
            forall i, j :: 0 <= i < j < |streams| ==> streams[i].channel != streams[j].channel
  {
    InvRun(states, steps, n);
  }

  /** Whatever has arrived of a channel's stream reads back, once its header has, as
      the channel and a prefix of what was sent on it; the whole stream as all of it. */
  lemma StreamReadsBack(states: seq<State>, steps: seq<Step>, n: nat, i: nat, cut: nat)
    requires Run(states, steps) && n <= |steps| && Failures(steps) == 0 && i < |states[n].streams|
    requires cut <= |StreamBytes(states[n].streams[i], MessageLimit(states[n]))|
    ensures var s, stream := states[n], states[n].streams[i];
            var bytes := StreamBytes(stream, MessageLimit(s));
            var r := ReadChannel(bytes[..cut], s.receiver.messageBytes);
            && (r.None? <==> cut < |ChannelHeader(stream.channel)|)
            && (r.Some? ==> r.value.0 == stream.channel && r.value.1 <= stream.events)
            && (cut == |bytes| ==> r == Some((stream.channel, stream.events)))
  {
    InvRun(states, steps, n);
    var s := states[n];
    LimitsAgree(s);
    hide Sendable, ReadChannel, ChannelStream, ChannelHeader;
    ChannelStreamRoundTrip(s.streams[i].channel, s.streams[i].events, MessageLimit(s), s.receiver.messageBytes, cut);
  }

  /** A run between endpoints with these limits in which the receiver has refused something. */
  ghost predicate Refuses(states: seq<State>, steps: seq<Step>, sender: Limits, receiver: Limits) {
    Run(states, steps) && states[0].sender == sender && states[0].receiver == receiver && states[|steps|].refused
  }

  /** The assumption about header writes is needed: whatever the limits, one failure
      is enough for a run that ends in a refusal. */
  lemma HeaderFailuresExactly(sender: Limits, receiver: Limits, k: nat)
    requires Normal(sender) && Normal(receiver)
    ensures (forall states, steps :: Failures(steps) <= k ==> !Refuses(states, steps, sender, receiver)) <==> k == 0
  {
    if k == 0 {
      forall states, steps | Failures(steps) <= k ensures !Refuses(states, steps, sender, receiver) {
        if Refuses(states, steps, sender, receiver) {
          NothingIsRefused(states, steps, |steps|);
        }
      }
    } else {
      var states, steps := SecondStream(sender, receiver);
      assert Refuses(states, steps, sender, receiver);
    }
  }

  /** The header of the first stream arrives although its write failed; the second
      stream of the channel is refused. */
  lemma SecondStream(sender: Limits, receiver: Limits) returns (states: seq<State>, steps: seq<Step>)
    requires Normal(sender) && Normal(receiver)
    ensures Refuses(states, steps, sender, receiver) && Failures(steps) == 1
  {
    var s0 := State(sender, receiver, map[], map[], map[], [], [], map[], map[], false);
    var s1 := Aborted(s0);
    var s2 := Retried(s0);
    var s3 := s2.(inbound := map[0 := Reliable], cursors := map[0 := 0]);
    var s4 := s3.(refused := true);
    BothSent(s0);
    OneAccepted(s2);
    hide Next, Enabled;
    states := [s0, s1, s2, s3, s4];
    steps := [FailHeader(0, 1, []), Send(0, 1, [], Reliable, true, true), Accept(0), Accept(1)];
    CountFailures(steps);
  }

  const SMALL: Event := Event(RELIABLE_EVENT_KIND, 0, 1, 0, [])

  function Aborted(s: State): State {
    s.(outbound := map[0 := Reliable], streams := [Stream(0, [])])
  }

  function Retried(s: State): State {
    s.(outbound := map[0 := Reliable], carriers := map[0 := 1], streams := [Stream(0, []), Stream(0, [SMALL])])
  }

  lemma BothSent(s: State)
    requires Init(s)
    ensures Enabled(s, FailHeader(0, 1, [])) && Next(s, FailHeader(0, 1, [])) == Aborted(s)
    ensures var again := Send(0, 1, [], Reliable, true, true);
            Enabled(Aborted(s), again) && Next(Aborted(s), again) == Retried(s)
  {
    hide EncodeReliableEvent, StreamBytes;
    SmallEventFits(SMALL, MessageLimit(s));
    assert ClassOf(s.outbound, Reliable) == {};
    assert [] + [SMALL] == [SMALL];
    assert s.streams + [Stream(0, [])] == [Stream(0, [])];
    assert [Stream(0, [])] + [Stream(0, [])] == [Stream(0, []), Stream(0, [])];
  }

  lemma OneAccepted(s: State)
    requires s.streams == [Stream(0, []), Stream(0, [SMALL])] && s.inbound == map[] && s.cursors == map[]
    requires s.receiver.reliableChannels >= 1
    ensures var s' := s.(inbound := map[0 := Reliable], cursors := map[0 := 0]);
            && Enabled(s, Accept(0)) && Next(s, Accept(0)) == s'
            && Enabled(s', Accept(1)) && Next(s', Accept(1)) == s'.(refused := true)
  {
    hide StreamBytes, ParseVarints;
    HeaderParses(s.streams[0], MessageLimit(s));
    HeaderParses(s.streams[1], MessageLimit(s));
    assert ClassOf(s.inbound, Reliable) == {};
  }

  lemma CountFailures(steps: seq<Step>)
    requires |steps| == 4 && steps[0].FailHeader?
    requires !steps[1].FailHeader? && !steps[2].FailHeader? && !steps[3].FailHeader?
    ensures Failures(steps) == 1
  {
    var a, b, c := steps[1..], steps[2..], steps[3..];
    assert a[1..] == b && b[1..] == c && c[1..] == [];
    assert Failures([]) == 0;
    assert Failures(c) == 0;
    assert Failures(b) == 0;
    assert Failures(a) == 0;
  }

  lemma SmallEventFits(event: Event, limit: int64)
    requires event == Event(RELIABLE_EVENT_KIND, 0, 1, 0, []) && 1 <= limit < 0x8000_0000_0000_0000 - 32
    ensures EncodeReliableEvent(event, limit).Ok?
  {
    var fields := EventFields(event, false);
    assert fields == [RELIABLE_EVENT_KIND, 0, 1];
    assert fields[1..] == [0, 1] && fields[2..] == [1] && fields[1..][1..] == [1];
    assert VarintsBytes([1]) == VarintBytes(1) + VarintsBytes([]);
    assert |EventBytes(event, false)| == 3;
  }

  datatype Arrival = Arrival(channel: nat, delivery: Delivery)

  /** The inbound bindings after any arrivals whatever, up to the first refusal, which ends the session. */
  function BoundAll(m: Bindings, arrivals: seq<Arrival>, local: Limits): Bindings
    decreases |arrivals|
  {
    if arrivals == [] then m
    else
      match BoundIn(m, arrivals[0].channel, arrivals[0].delivery, ChannelLimit(local, arrivals[0].delivery))
      case None => m
      case Some(later) => BoundAll(later, arrivals[1..], local)
  }

  /** Against any peer, keeping to the protocol or not: inbound channels stay within
      the local limits and no channel ever changes its delivery mode. */
  lemma {:induction false} InboundIsBounded(m: Bindings, arrivals: seq<Arrival>, local: Limits)
    requires |ClassOf(m, Reliable)| <= local.reliableChannels && |ClassOf(m, Unreliable)| <= local.datagramChannels
    ensures var r := BoundAll(m, arrivals, local);
            && |ClassOf(r, Reliable)| <= local.reliableChannels && |ClassOf(r, Unreliable)| <= local.datagramChannels
            && forall c :: c in m ==> c in r && r[c] == m[c]
    decreases |arrivals|
  {
    hide ClassOf;
    if arrivals != [] {
      var a := arrivals[0];
      var bound := BoundIn(m, a.channel, a.delivery, ChannelLimit(local, a.delivery));
      SameClass(m);
      if a.channel !in m {
        ClassGrows(m, a.channel, a.delivery, Reliable);
        ClassGrows(m, a.channel, a.delivery, Unreliable);
      }
      if bound.Some? {
        InboundIsBounded(bound.value, arrivals[1..], local);
      }
    }
  }

  // ----------------------------------------------------------- what is accepted

  /** A channel of either endpoint's choice can be used at any moment for one delivery:
      the one it is bound to, or, while unbound, any whose class has room under both limits. */
  predicate CanSend(s: State, channel: nat, delivery: Delivery) {
    if channel in s.outbound then s.outbound[channel] == delivery
    else
      var used := |set c | c in s.outbound && SameSide(s.outbound[c], delivery)|;
      if delivery == Reliable then used < s.sender.reliableChannels && used < s.receiver.reliableChannels
      else used < s.sender.datagramChannels && used < s.receiver.datagramChannels
  }

  predicate SendsWell(s: State, step: Step)
    requires step.Send?
  {
    CanSend(s, step.channel, step.delivery) && step.opens && step.writes
  }

  /** A reliable `send` that may and that nothing fails puts the event at the end of its
      channel's stream, opened if need be, whenever it can be encoded within both limits. */
  lemma ReliableSendSucceeds(states: seq<State>, steps: seq<Step>, n: nat)
    requires Run(states, steps) && n < |steps| && Failures(steps) == 0
    requires steps[n].Send? && steps[n].delivery == Reliable && SendsWell(states[n], steps[n])
    requires 1 <= steps[n].typ <= 4294967295
    requires |steps[n].payload| <= states[n].sender.messageBytes
    requires |steps[n].payload| <= states[n].receiver.messageBytes
    requires states[n].sender.messageBytes <= MAX_VARINT - 32
    ensures var s, s', c := states[n], states[n + 1], steps[n].channel;
            && c in s'.carriers && s'.carriers[c] < |s'.streams|
            && s'.outbound == s.outbound[c := Reliable]
            && s'.streams[s'.carriers[c]].channel == c
            && s'.streams[s'.carriers[c]].events
               == (if c in s.carriers then s.streams[s.carriers[c]].events else [])
                  + [Event(RELIABLE_EVENT_KIND, c, steps[n].typ, 0, steps[n].payload)]
  {
    InvRun(states, steps, n);
    var s, c := states[n], steps[n].channel;
    var event := Event(RELIABLE_EVENT_KIND, c, steps[n].typ, 0, steps[n].payload);
    assert states[n + 1] == Next(s, steps[n]) && Enabled(s, steps[n]);
    ReliableEncodable(event, MessageLimit(s));
    CanBind(s, c, Reliable);
    hide EncodeReliableEvent, ClassOf, Written, AllGenuine, Follows;
    assert c in s.outbound ==> s.outbound[c := Reliable] == s.outbound;
  }

  /** A binding that can be made is made; one that cannot is refused. */
  lemma CanBind(s: State, c: nat, delivery: Delivery)
    requires Normal(s.sender) && Normal(s.receiver)
    ensures var bound := BoundOut(s.outbound, c, delivery, OutboundLimit(s.sender, s.receiver, delivery));
            && (bound.Some? <==> CanSend(s, c, delivery))
            && (bound.Some? ==> bound.value == s.outbound[c := delivery])
  {
    assert ClassOf(s.outbound, delivery) == set c | c in s.outbound && SameSide(s.outbound[c], delivery);
    if c in s.outbound && s.outbound[c] == delivery {
      assert s.outbound[c := delivery] == s.outbound;
    }
  }

  /** An unreliable or sequenced `send` that may and that nothing fails emits its datagram
      when valid and within both limits; a sequenced one carries its channel's next number. */
  lemma DatagramSendSucceeds(states: seq<State>, steps: seq<Step>, n: nat)
    requires Run(states, steps) && n < |steps|
    requires steps[n].Send? && steps[n].delivery != Reliable && SendsWell(states[n], steps[n])
    requires Normal(states[n].sender) && Normal(states[n].receiver)
    ensures var s, s', c := states[n], states[n + 1], steps[n].channel;
            var q := if c in s.sequences then s.sequences[c] + 1 else 1;
            var event := if steps[n].delivery == Sequenced then Event(3, c, steps[n].typ, q, steps[n].payload)
                         else Event(2, c, steps[n].typ, 0, steps[n].payload);
            var limit: int64 := if s.sender.datagramBytes <= s.receiver.datagramBytes
                                then s.sender.datagramBytes else s.receiver.datagramBytes;
            && s'.outbound == s.outbound[c := steps[n].delivery]
            && s'.sequences == (if steps[n].delivery == Sequenced then s.sequences[c := q] else s.sequences)
            && s'.datagrams == s.datagrams
                 + if EncodeDatagram(event, limit).Ok? then [EncodeDatagram(event, limit).value] else []
  {
    var s := states[n];
    assert states[n + 1] == Next(s, steps[n]);
    CanBind(s, steps[n].channel, steps[n].delivery);
    hide EncodeDatagram, ClassOf, BoundOut, CanSend;
    assert s.datagrams + [] == s.datagrams;
  }

  /** A `send` on a channel bound otherwise, or without room for one more, changes nothing. */
  lemma RefusedSendChangesNothing(states: seq<State>, steps: seq<Step>, n: nat)
    requires Run(states, steps) && n < |steps| && steps[n].Send?
    requires Normal(states[n].sender) && Normal(states[n].receiver)
    requires !CanSend(states[n], steps[n].channel, steps[n].delivery)
    ensures states[n + 1] == states[n]
  {
    assert states[n + 1] == Next(states[n], steps[n]);
    CanBind(states[n], steps[n].channel, steps[n].delivery);
    hide EncodeDatagram, EncodeReliableEvent, ClassOf, BoundOut, CanSend;
  }

  /** What the receiver makes of the stream, the event or the datagram it takes at `step`: the
      stream binds its channel and is read from its first event, the next event moves the reader
      one on, the datagram binds its channel to its own mode, once or again. */
  predicate Taken(s: State, step: Step, s': State) {
    match step
    case Accept(i) =>
      i < |s.streams| && s' == s.(inbound := s.inbound[s.streams[i].channel := Reliable], cursors := s.cursors[i := 0])
    case ReadEvent(i) => i in s.cursors && s' == s.(cursors := s.cursors[i := s.cursors[i] + 1])
    case Receive(d) =>
      && d < |s.datagrams| && DecodeDatagram(s.datagrams[d], s.receiver.datagramBytes).Ok?
      && var e := DecodeDatagram(s.datagrams[d], s.receiver.datagramBytes).value;
         s' == s.(inbound := s.inbound[e.channel := if e.kind == 3 then Sequenced else Unreliable])
    case _ => s'.inbound == s.inbound && s'.cursors == s.cursors
  }

  /** What arrives is taken, whatever came before it: every stream not yet accepted, every
      event not yet read and every datagram, in any order. */
  lemma EverythingIsTaken(states: seq<State>, steps: seq<Step>, n: nat)
    requires Run(states, steps) && n < |steps| && Failures(steps) == 0
    ensures Taken(states[n], steps[n], states[n + 1])
    ensures forall i :: 0 <= i < |states[n].streams| && i !in states[n].cursors ==> Enabled(states[n], Accept(i))
    ensures forall d :: 0 <= d < |states[n].datagrams| ==> Enabled(states[n], Receive(d))
  {
    hide Taken, Inv, Next, Failures, ClassOf;
    InvRun(states, steps, n);
    InvRun(states, steps, n + 1);
    assert states[n + 1] == Next(states[n], steps[n]);
    NoneRefused(states[n + 1]);
    StepIsTaken(states[n], steps[n]);
  }

  lemma NoneRefused(s: State)
    requires Inv(s)
    ensures !s.refused
  {
  }

  lemma StepIsTaken(s: State, step: Step)
    requires Inv(s) && Enabled(s, step) && !Next(s, step).refused
    ensures Taken(s, step, Next(s, step))
  {
    hide Taken, Inv, Accepted, ReadNext, Received;
    match step
    case Accept(i) => StreamIsTaken(s, i);
    case ReadEvent(i) => EventIsTaken(s, i);
    case Receive(d) => DatagramIsTaken(s, d);
    case _ => SenderAlone(s, step);
  }

  lemma StreamIsTaken(s: State, i: nat)
    requires Inv(s) && Enabled(s, Accept(i)) && !Accepted(s, i).refused
    ensures Taken(s, Accept(i), Accepted(s, i))
  {
    hide ParseVarints, StreamBytes, ClassOf, Written, AllGenuine, Roomy, Follows;
    HeaderParses(s.streams[i], MessageLimit(s));
  }

  lemma EventIsTaken(s: State, i: nat)
    requires Enabled(s, ReadEvent(i)) && !ReadNext(s, i).refused
    ensures Taken(s, ReadEvent(i), ReadNext(s, i))
  {
    hide StreamedEvent, Framed;
  }

  lemma DatagramIsTaken(s: State, d: nat)
    requires Enabled(s, Receive(d)) && !Received(s, d).refused
    ensures Taken(s, Receive(d), Received(s, d))
  {
    var decoded := DecodeDatagram(s.datagrams[d], s.receiver.datagramBytes);
    hide DecodeDatagram, ClassOf;
    var c := decoded.value.channel;
    assert c in s.inbound ==> s.inbound[c := s.inbound[c]] == s.inbound;
  }

  lemma SenderAlone(s: State, step: Step)
    requires Enabled(s, step) && (step.Send? || step.FailHeader?)
    ensures Taken(s, step, Next(s, step))
  {
    hide SendReliable, SendDatagram, SendAborted;
  }

  /** A reliable `send` that may, but for which no stream can be opened or nothing be written,
      has bound its channel all the same; a channel with a stream keeps it as it is. */
  lemma FailedSendStillBinds(states: seq<State>, steps: seq<Step>, n: nat)
    requires Run(states, steps) && n < |steps| && steps[n].Send? && steps[n].delivery == Reliable && !steps[n].writes
    requires Normal(states[n].sender) && Normal(states[n].receiver)
    requires CanSend(states[n], steps[n].channel, Reliable)
    requires EncodeReliableEvent(Event(RELIABLE_EVENT_KIND, steps[n].channel, steps[n].typ, 0, steps[n].payload),
                                 MessageLimit(states[n])).Ok?
    ensures var s, s', c := states[n], states[n + 1], steps[n].channel;
            && s'.outbound == s.outbound[c := Reliable]
            && s'.streams == s.streams + (if c !in s.carriers && steps[n].opens then [Stream(c, [])] else [])
  {
    assert states[n + 1] == Next(states[n], steps[n]);
    CanBind(states[n], steps[n].channel, Reliable);
    hide EncodeReliableEvent, ClassOf, BoundOut, CanSend;
    assert states[n].streams + [] == states[n].streams;
  }
}
