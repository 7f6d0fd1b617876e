/**
 The frames of `internal/wire/events.go` and `internal/wire/request.go`.

 Slice codecs are functions; loops over fields and the readers that pull bytes
 from a stream are methods proved against them. Limits are Go `int`s, so any
 integer is admitted and conversions to `uint64` are written out.
 */
module Frames {
  import opened Prelude
  import opened Varint

  const MAX_MESSAGE_TYPE: nat := 0xFFFF_FFFF
  const MAX_CHANNEL: nat := 0xFFFF
  const RELIABLE_EVENT_KIND: nat := 1
  const UNRELIABLE_KIND: nat := 2
  const SEQUENCED_KIND: nat := 3
  const REQUEST_STREAM_KIND: nat := 2
  const CUSTOM_STREAM_KIND: nat := 3
  const MAX_TIMEOUT_MS: nat := 300000
  const MAX_DIAGNOSTIC_BYTES: nat := 256

  datatype Event = Event(kind: nat, channel: nat, messageType: nat, sequence: nat, payload: Bytes)
  datatype Request = Request(messageType: nat, timeoutMS: nat, payload: Bytes)
  datatype Response = Response(status: nat, payload: Bytes)

  /** `uint64(x)`. */
  function Unsigned(x: int): nat {
    x % 0x1_0000_0000_0000_0000
  }

  /** The `int` that 64-bit addition yields for the mathematical sum `x`. */
  function Wrapped(x: int): int {
    (x + 0x8000_0000_0000_0000) % 0x1_0000_0000_0000_0000 - 0x8000_0000_0000_0000
  }

  // ------------------------------------------------------- varint sequences

  predicate Fits(vs: seq<nat>) {
    forall i :: 0 <= i < |vs| ==> vs[i] <= MAX_VARINT
  }

  function VarintsBytes(vs: seq<nat>): Bytes {
    if vs == [] then [] else VarintBytes(vs[0]) + VarintsBytes(vs[1..])
  }

  /** Reads `k` varints; `end` is the error for input that stops before a varint. */
  function ParseVarints(src: Bytes, k: nat, end: WireError): (r: Result<(seq<nat>, nat)>)
    ensures r.Ok? ==> |r.value.0| == k && r.value.1 <= |src|
  {
    if k == 0 then Ok(([], 0))
    else
      match ParseVarint(src)
      case Err(e) => Err(if src == [] then end else e)
      case Ok((v, n)) =>
        match ParseVarints(src[n..], k - 1, end)
        case Err(e) => Err(e)
        case Ok((vs, used)) => Ok(([v] + vs, n + used))
  }

  /** `r` after the values already read, which took `used` bytes. */
  function After(values: seq<nat>, used: nat, r: Result<(seq<nat>, nat)>): Result<(seq<nat>, nat)> {
    match r
    case Err(e) => Err(e)
    case Ok((vs, n)) => Ok((values + vs, used + n))
  }

  lemma AfterEnds(values: seq<nat>, used: nat, r: Result<(seq<nat>, nat)>)
    ensures r == Ok(([], 0)) ==> After(values, used, r) == Ok((values, used))
    ensures values == [] && used == 0 ==> After(values, used, r) == r
  {
    if values == [] && used == 0 && r.Ok? {
      assert [] + r.value.0 == r.value.0;
    }
    assert values + [] == values;
  }

  lemma FieldFails(values: seq<nat>, used: nat, src: Bytes, k: nat, end: WireError)
    requires k >= 1
    ensures ParseVarint(src).Err? ==>
              After(values, used, ParseVarints(src, k, end)) == Err(if src == [] then end else ParseVarint(src).error)
  {
    hide ParseVarint;
  }

  /** One more value read by a field loop. */
  lemma NextField(values: seq<nat>, used: nat, src: Bytes, k: nat, end: WireError)
    requires k >= 1 && ParseVarint(src).Ok?
    ensures var (v, n) := ParseVarint(src).value;
            After(values, used, ParseVarints(src, k, end))
            == After(values + [v], used + n, ParseVarints(src[n..], k - 1, end))
  {
    hide ParseVarint;
    var (v, n) := ParseVarint(src).value;
    var tail := ParseVarints(src[n..], k - 1, end);
    assert tail.Ok? ==> values + ([v] + tail.value.0) == (values + [v]) + tail.value.0;
  }

  lemma {:induction false} VarintsRoundTrip(vs: seq<nat>, rest: Bytes, end: WireError)
    requires Fits(vs)
    ensures ParseVarints(VarintsBytes(vs) + rest, |vs|, end) == Ok((vs, |VarintsBytes(vs)|))
  {
    hide ParseVarint, ParseVarints, VarintBytes;
    if vs == [] {
      NoFields(rest, end);
    } else {
      var first, later := VarintBytes(vs[0]), VarintsBytes(vs[1..]);
      VarintRoundTrip(vs[0], later + rest);
      VarintsRoundTrip(vs[1..], rest, end);
      var src := VarintsBytes(vs) + rest;
      assert src == first + (later + rest) && src[|first|..] == later + rest;
      FieldThenRest(src, |first|, vs[0], vs[1..], |later|, end);
      assert vs == [vs[0]] + vs[1..];
    }
  }

  lemma NoBytes(src: Bytes)
    ensures VarintsBytes([]) == [] && src == [] + src[0..]
  {
  }

  lemma NoFields(rest: Bytes, end: WireError)
    ensures ParseVarints([] + rest, 0, end) == Ok(([], 0))
  {
  }

  lemma FieldThenRest(src: Bytes, n: nat, v: nat, vs: seq<nat>, used: nat, end: WireError)
    requires ParseVarint(src) == Ok((v, n))
    requires ParseVarints(src[n..], |vs|, end) == Ok((vs, used))
    ensures ParseVarints(src, |vs| + 1, end) == Ok(([v] + vs, n + used))
  {
    hide ParseVarint;
  }

  lemma {:induction false} VarintsUnique(src: Bytes, k: nat, end: WireError)
    requires ParseVarints(src, k, end).Ok?
    ensures var (vs, used) := ParseVarints(src, k, end).value;
            && Fits(vs) && used == |VarintsBytes(vs)|
            && src == VarintsBytes(vs) + src[used..]
  {
    hide ParseVarint, VarintBytes, VarintsBytes;
    if k == 0 {
      NoBytes(src);
    } else {
      var (v, n) := ParseVarint(src).value;
      var tail := src[n..];
      var (vs, used) := ParseVarints(tail, k - 1, end).value;
      VarintUnique(src);
      VarintsUnique(tail, k - 1, end);
      assert ParseVarints(src, k, end).value == ([v] + vs, n + used);
      ConsFields(v, vs);
      Splice(src, VarintBytes(v), VarintsBytes(vs));
    }
  }

  lemma Splice(src: Bytes, a: Bytes, b: Bytes)
    requires |a| <= |src| && src == a + src[|a|..]
    requires |a| + |b| <= |src| && src[|a|..] == b + src[|a|..][|b|..]
    ensures src == (a + b) + src[|a| + |b|..]
  {
    assert src[|a|..][|b|..] == src[|a| + |b|..];
  }

  lemma ConsFields(v: nat, vs: seq<nat>)
    ensures VarintsBytes([v] + vs) == VarintBytes(v) + VarintsBytes(vs)
    ensures v <= MAX_VARINT && Fits(vs) ==> Fits([v] + vs)
  {
    hide VarintBytes;
    assert ([v] + vs)[1..] == vs;
  }

  /** The encoders' loop over a list of fields. */
  method AppendVarints(dst: Bytes, vs: seq<nat>) returns (r: Result<Bytes>)
    ensures r == if Fits(vs) then Ok(dst + VarintsBytes(vs)) else Err(ValueTooLarge)
  {
    var buf := dst;
    var i := 0;
    while i < |vs|
      invariant 0 <= i <= |vs| && Fits(vs[..i])
      invariant buf + VarintsBytes(vs[i..]) == dst + VarintsBytes(vs)
    {
      var appended := AppendVarint(buf, vs[i]);
      if appended.Err? {
        return Err(appended.error);
      }
      assert vs[i..][1..] == vs[i + 1..];
      assert buf + (VarintBytes(vs[i]) + VarintsBytes(vs[i + 1..])) == appended.value + VarintsBytes(vs[i + 1..]);
      buf := appended.value;
      i := i + 1;
    }
    assert vs[..i] == vs && vs[i..] == [] && buf + [] == buf;
    return Ok(buf);
  }

  /** The slice decoders' loop over `k` fields. */
  method DecodeFields(src: Bytes, k: nat) returns (r: Result<(seq<nat>, nat)>)
    ensures r == ParseVarints(src, k, Truncated)
  {
    hide ParseVarint, VarintBytes;
    var values: seq<nat> := [];
    var used: nat := 0;
    assert src[0..] == src && forall vs: seq<nat> :: [] + vs == vs;
    while |values| < k
      invariant |values| <= k && used <= |src|
      invariant ParseVarints(src, k, Truncated)
             == After(values, used, ParseVarints(src[used..], k - |values|, Truncated))
    {
      var decoded := DecodeVarint(src[used..]);
      if decoded.Err? {
        assert decoded.error == Truncated || src[used..] != [] by { FailedOnInput(src[used..]); }
        return Err(decoded.error);
      }
      var (value, n) := decoded.value;
      NextField(values, used, src[used..], k - |values|, Truncated);
      assert src[used..][n..] == src[used + n..];
      values := values + [value];
      used := used + n;
    }
    assert values + [] == values;
    return Ok((values, used));
  }

  lemma FailedOnInput(src: Bytes)
    ensures src == [] ==> ParseVarint(src) == Err(Truncated)
  {
  }

  /** The stream readers' loop over `k` fields. */
  method ReadFields(reader: ByteReader, k: nat) returns (r: Result<(seq<nat>, nat)>)
    requires reader.Valid()
    modifies reader
    ensures reader.Valid()
    ensures r == ParseVarints(old(reader.Rest()), k, EndOfStream)
    ensures r.Ok? ==> reader.Rest() == old(reader.Rest())[r.value.1..]
  {
    hide ParseVarint, ParseVarints, After, VarintBytes;
    ghost var s := reader.Rest();
    var values: seq<nat> := [];
    var used: nat := 0;
    assert s[0..] == s;
    AfterEnds([], 0, ParseVarints(s, k, EndOfStream));
    while |values| < k
      invariant reader.Valid() && |values| <= k && used <= |s|
      invariant reader.Rest() == s[used..]
      invariant ParseVarints(s, k, EndOfStream)
             == After(values, used, ParseVarints(s[used..], k - |values|, EndOfStream))
    {
      FieldFails(values, used, s[used..], k - |values|, EndOfStream);
      var decoded := reader.ReadVarint();
      if decoded.Err? {
        return Err(decoded.error);
      }
      VarintUnique(s[used..]);
      NextField(values, used, s[used..], k - |values|, EndOfStream);
      ghost var n := ParseVarint(s[used..]).value.1;
      assert s[used..][n..] == s[used + n..];
      values := values + [decoded.value];
      used := used + VarintLen(decoded.value);
    }
    assert [] + s[used..] == s[used..];
    NoFields(s[used..], EndOfStream);
    AfterEnds(values, used, Ok(([], 0)));
    return Ok((values, used));
  }

  // ------------------------------------------------------------------ events

  predicate ValidEvent(event: Event, sequenced: bool) {
    && event.channel <= MAX_CHANNEL
    && 1 <= event.messageType <= MAX_MESSAGE_TYPE
    && (sequenced ==> event.sequence != 0)
  }

  function EventFields(event: Event, sequenced: bool): seq<nat> {
    [event.kind, event.channel, event.messageType] + if sequenced then [event.sequence] else []
  }

  function EventBytes(event: Event, sequenced: bool): Bytes {
    VarintsBytes(EventFields(event, sequenced)) + event.payload
  }

  method AppendEvent(dst: Bytes, event: Event, sequenced: bool) returns (r: Result<Bytes>)
    ensures r == if Fits(EventFields(event, sequenced)) then Ok(dst + EventBytes(event, sequenced))
            else Err(ValueTooLarge)
  {
    var fields := AppendVarints(dst, EventFields(event, sequenced));
    if fields.Err? {
      return Err(fields.error);
    }
    assert fields.value + event.payload == dst + EventBytes(event, sequenced);
    return Ok(fields.value + event.payload);
  }

  function DecodeEvent(src: Bytes, expectedKind: nat): (r: Result<(Event, nat)>)
    ensures r.Ok? ==> r.value.1 <= |src| && r.value.0.sequence == 0
  {
    match ParseVarint(src)
    case Err(e) => Err(e)
    case Ok((kind, a)) =>
      if expectedKind != 0 && kind != expectedKind then Err(InvalidKind)
      else
        match ParseVarint(src[a..])
        case Err(e) => Err(e)
        case Ok((channel, b)) =>
          match ParseVarint(src[a + b..])
          case Err(e) => Err(e)
          case Ok((messageType, c)) =>
            var used := a + b + c;
            Ok((Event(kind, channel, messageType, 0, src[used..]), used))
  }

  lemma OneField(src: Bytes, end: WireError)
    ensures ParseVarints(src, 1, end).Ok? <==> ParseVarint(src).Ok?
    ensures ParseVarint(src).Ok? ==>
              var (v, n) := ParseVarint(src).value;
              ParseVarints(src, 1, end) == Ok(([v], n))
  {
    hide ParseVarint;
    if ParseVarint(src).Ok? {
      var (v, n) := ParseVarint(src).value;
      assert ParseVarints(src[n..], 0, end) == Ok(([], 0));
      assert [v] + [] == [v];
    }
  }

  /** Field by field, `decodeEvent` reads three varints and checks the first. */
  lemma DecodeEventFields(src: Bytes, expectedKind: nat)
    ensures DecodeEvent(src, expectedKind).Ok? <==>
            && ParseVarints(src, 3, Truncated).Ok?
            && (expectedKind == 0 || ParseVarints(src, 3, Truncated).value.0[0] == expectedKind)
    ensures DecodeEvent(src, expectedKind).Ok? ==>
              var (event, used) := DecodeEvent(src, expectedKind).value;
              && ParseVarints(src, 3, Truncated).value == (EventFields(event, false), used)
              && event.payload == src[used..]
  {
    hide ParseVarint;
    if ParseVarint(src).Ok? {
      var a := ParseVarint(src).value.1;
      var mid := src[a..];
      if ParseVarint(mid).Ok? {
        var b := ParseVarint(mid).value.1;
        assert mid[b..] == src[a + b..];
        OneField(mid[b..], Truncated);
        if ParseVarint(mid[b..]).Ok? {
          var (event, used) := DecodeEvent(src, 0).value;
          assert [event.kind] + ([event.channel] + [event.messageType]) == EventFields(event, false);
        }
      }
    }
  }

  function EncodeReliableEvent(event: Event, maxPayload: int64): Result<Bytes> {
    if event.kind != 0 && event.kind != RELIABLE_EVENT_KIND then Err(InvalidKind)
    else if maxPayload < 0 || |event.payload| > maxPayload then Err(TooLarge)
    else
      var framed := event.(kind := RELIABLE_EVENT_KIND);
      if !ValidEvent(framed, false) then Err(Malformed)
      else
        var body := EventBytes(framed, false);
        if |body| > Wrapped(maxPayload + 32) then Err(TooLarge)
        else
          match EncodeVarint(|body|)
          case Err(e) => Err(e)
          case Ok(length) => Ok(length + body)
  }

  /** The slice decoder; it leaves channel and type unchecked. */
  function DecodeReliableEvent(src: Bytes, maxPayload: int64): Result<(Event, nat)> {
    match ParseVarint(src)
    case Err(e) => Err(e)
    case Ok((length, n)) =>
      if length > Unsigned(maxPayload + 32) then Err(TooLarge)
      else if length > |src| - n then Err(Truncated)
      else
        var body := src[n..][..length];
        match DecodeEvent(body, RELIABLE_EVENT_KIND)
        case Err(e) => Err(e)
        case Ok((event, used)) =>
          if used > |body| || |event.payload| > maxPayload then Err(Malformed)
          else Ok((event, n + length))
  }

  function EncodeDatagram(event: Event, maxBytes: int64): Result<Bytes> {
    if event.kind != UNRELIABLE_KIND && event.kind != SEQUENCED_KIND then Err(InvalidKind)
    else if maxBytes < 0 then Err(TooLarge)
    else
      var sequenced := event.kind == SEQUENCED_KIND;
      if !ValidEvent(event, sequenced) then Err(Malformed)
      else if !Fits(EventFields(event, sequenced)) then Err(ValueTooLarge)
      else if |EventBytes(event, sequenced)| > maxBytes then Err(TooLarge)
      else Ok(EventBytes(event, sequenced))
  }

  function DecodeDatagram(src: Bytes, maxBytes: int64): Result<Event> {
    if |src| > maxBytes then Err(TooLarge)
    else
      match DecodeEvent(src, 0)
      case Err(e) => Err(e)
      case Ok((event, used)) =>
        if event.kind != UNRELIABLE_KIND && event.kind != SEQUENCED_KIND then Err(InvalidKind)
        else if event.kind == SEQUENCED_KIND then
          match ParseVarint(src[used..])
          case Err(e) => Err(e)
          case Ok((sequence, n)) =>
            var full := event.(sequence := sequence, payload := src[used + n..]);
            if ValidEvent(full, true) then Ok(full) else Err(Malformed)
        else if ValidEvent(event, false) then Ok(event)
        else Err(Malformed)
  }

  /** An unreliable datagram carries no sequence number. */
  predicate CanonicalDatagram(event: Event) {
    event.kind != SEQUENCED_KIND ==> event.sequence == 0
  }

  /** Datagrams: encoder and decoder are mutual inverses, for every limit. */
  lemma DatagramBijection(event: Event, src: Bytes, maxBytes: int64)
    requires CanonicalDatagram(event)
    ensures EncodeDatagram(event, maxBytes) == Ok(src) <==> DecodeDatagram(src, maxBytes) == Ok(event)
  {
    if EncodeDatagram(event, maxBytes) == Ok(src) {
      DatagramDecodes(event, src, maxBytes);
    }
    if DecodeDatagram(src, maxBytes) == Ok(event) {
      DatagramEncodes(event, src, maxBytes);
    }
  }

  lemma DatagramDecodes(event: Event, src: Bytes, maxBytes: int64)
    requires CanonicalDatagram(event)
    requires EncodeDatagram(event, maxBytes) == Ok(src)
    ensures DecodeDatagram(src, maxBytes) == Ok(event)
  {
    hide ParseVarint, VarintBytes;
    var sequenced := event.kind == SEQUENCED_KIND;
    var head := EventFields(event, false);
    var tail := if sequenced then VarintsBytes([event.sequence]) + event.payload else event.payload;
    FieldsSplit(event);
    assert src == VarintsBytes(head) + tail;
    VarintsRoundTrip(head, tail, Truncated);
    DecodeEventFields(src, 0);
    var (decoded, used) := DecodeEvent(src, 0).value;
    assert EventFields(decoded, false) == head && src[used..] == tail;
    assert decoded.kind == head[0] && decoded.channel == head[1] && decoded.messageType == head[2];
    if sequenced {
      assert VarintsBytes([event.sequence]) == VarintBytes(event.sequence);
      assert EventFields(event, true)[3] == event.sequence;
      VarintRoundTrip(event.sequence, event.payload);
      assert src[used + VarintLen(event.sequence)..] == event.payload;
    }
  }

  lemma DatagramEncodes(event: Event, src: Bytes, maxBytes: int64)
    requires DecodeDatagram(src, maxBytes) == Ok(event)
    ensures EncodeDatagram(event, maxBytes) == Ok(src)
  {
    hide ParseVarint, VarintBytes;
    DecodeEventFields(src, 0);
    VarintsUnique(src, 3, Truncated);
    var (decoded, used) := DecodeEvent(src, 0).value;
    FieldsSplit(event);
    assert EventFields(event, false) == EventFields(decoded, false);
    if event.kind == SEQUENCED_KIND {
      VarintUnique(src[used..]);
      assert VarintsBytes([event.sequence]) == VarintBytes(event.sequence);
      assert src[used..][VarintLen(event.sequence)..] == event.payload;
    }
  }

  lemma FieldsSplit(event: Event)
    ensures EventBytes(event, true)
         == VarintsBytes(EventFields(event, false)) + (VarintsBytes([event.sequence]) + event.payload)
    ensures EventBytes(event, false) == VarintsBytes(EventFields(event, false)) + event.payload
  {
    VarintsConcat(EventFields(event, false), [event.sequence]);
    assert EventFields(event, true) == EventFields(event, false) + [event.sequence];
  }

  lemma {:induction false} VarintsConcat(a: seq<nat>, b: seq<nat>)
    ensures VarintsBytes(a + b) == VarintsBytes(a) + VarintsBytes(b)
  {
    if a == [] {
      assert a + b == b;
    } else {
      assert (a + b)[1..] == a[1..] + b;
      VarintsConcat(a[1..], b);
    }
  }

  // -------------------------------------------------- streaming event reader

  /** The fields of a frame of `length` bytes at the front of a stream: event, payload length, bytes read. */
  function HeaderAt(s: Bytes, length: nat, maxPayload: int64): (r: Result<(Event, nat, nat)>)
    ensures r.Ok? ==> r.value.1 + r.value.2 == length && r.value.2 <= |s|
  {
    if maxPayload < 0 || length > Unsigned(maxPayload + 32) then Err(TooLarge)
    else
      match ParseVarints(s, 3, EndOfStream)
      case Err(e) => Err(e)
      case Ok((fields, used)) =>
        var event := Event(fields[0], fields[1], fields[2], 0, []);
        if event.kind != RELIABLE_EVENT_KIND then Err(InvalidKind)
        else if !ValidEvent(event, false) then Err(Malformed)
        else if used > length then Err(Truncated)
        else if length - used > Unsigned(maxPayload) then Err(TooLarge)
        else Ok((event, length - used, used))
  }

  /** One iteration of `readReliableStream`: length, header, body. */
  function StreamedEvent(s: Bytes, maxPayload: int64): (r: Result<(Event, nat)>)
    ensures r.Ok? ==> 1 <= r.value.1 <= |s|
  {
    match ParseVarint(s)
    case Err(e) => Err(if s == [] then EndOfStream else e)
    case Ok((length, n)) =>
      if length > Unsigned(maxPayload + 32) then Err(TooLarge)
      else
        var tail := s[n..];
        match HeaderAt(tail, length, maxPayload)
        case Err(e) => Err(e)
        case Ok((event, payloadBytes, used)) =>
          if |tail| < length then Err(EndOfStream)
          else Ok((event.(payload := tail[used..length]), n + length))
  }

  /** For every byte string and limit, the stream reader accepts exactly the
      frames that the slice decoder accepts and `validateEvent` passes, with the
      same event and the same number of bytes consumed. */
  lemma StreamingRefinesSlice(src: Bytes, maxPayload: int64)
    ensures StreamedEvent(src, maxPayload).Ok? <==>
            && DecodeReliableEvent(src, maxPayload).Ok?
            && ValidEvent(DecodeReliableEvent(src, maxPayload).value.0, false)
    ensures StreamedEvent(src, maxPayload).Ok? ==>
              StreamedEvent(src, maxPayload) == DecodeReliableEvent(src, maxPayload)
  {
    if StreamedEvent(src, maxPayload).Ok? {
      StreamAcceptedBySlice(src, maxPayload);
    } else if DecodeReliableEvent(src, maxPayload).Ok?
              && ValidEvent(DecodeReliableEvent(src, maxPayload).value.0, false)
    {
      SliceAcceptedByStream(src, maxPayload);
    }
  }

  lemma StreamAcceptedBySlice(src: Bytes, maxPayload: int64)
    requires StreamedEvent(src, maxPayload).Ok?
    ensures DecodeReliableEvent(src, maxPayload) == StreamedEvent(src, maxPayload)
    ensures ValidEvent(DecodeReliableEvent(src, maxPayload).value.0, false)
  {
    hide ParseVarint, VarintBytes;
    var (length, n) := ParseVarint(src).value;
    var tail := src[n..];
    var (fields, used) := ParseVarints(tail, 3, EndOfStream).value;
    VarintsUnique(tail, 3, EndOfStream);
    assert tail[..length] == VarintsBytes(fields) + tail[used..length];
    BodyDecodes(fields, tail[used..length]);
  }

  /** Three fields followed by a payload are an event body. */
  lemma BodyDecodes(fields: seq<nat>, payload: Bytes)
    requires |fields| == 3 && Fits(fields) && fields[0] == RELIABLE_EVENT_KIND
    ensures DecodeEvent(VarintsBytes(fields) + payload, RELIABLE_EVENT_KIND)
         == Ok((Event(fields[0], fields[1], fields[2], 0, payload), |VarintsBytes(fields)|))
  {
    hide ParseVarint, VarintBytes;
    var body := VarintsBytes(fields) + payload;
    VarintsRoundTrip(fields, payload, Truncated);
    DecodeEventFields(body, RELIABLE_EVENT_KIND);
    var (event, used) := DecodeEvent(body, RELIABLE_EVENT_KIND).value;
    assert EventFields(event, false) == fields;
    assert event.channel == fields[1] && event.messageType == fields[2];
    assert body[used..] == payload;
  }

  lemma SliceAcceptedByStream(src: Bytes, maxPayload: int64)
    requires DecodeReliableEvent(src, maxPayload).Ok?
    requires ValidEvent(DecodeReliableEvent(src, maxPayload).value.0, false)
    ensures StreamedEvent(src, maxPayload).Ok?
  {
    hide ParseVarint, VarintBytes;
    var (length, n) := ParseVarint(src).value;
    var tail := src[n..];
    var body := tail[..length];
    DecodeEventFields(body, RELIABLE_EVENT_KIND);
    VarintsUnique(body, 3, Truncated);
    var (event, used) := DecodeEvent(body, RELIABLE_EVENT_KIND).value;
    assert tail == VarintsBytes(EventFields(event, false)) + (body[used..] + tail[length..]);
    HeaderFound(event, body[used..] + tail[length..], length, maxPayload);
  }

  /** The header reader finds the fields of a valid event at the front of the stream. */
  lemma HeaderFound(event: Event, rest: Bytes, length: nat, maxPayload: int64)
    requires event.kind == RELIABLE_EVENT_KIND && ValidEvent(event, false)
    requires 0 <= maxPayload && length <= Unsigned(maxPayload + 32)
    requires var used := |VarintsBytes(EventFields(event, false))|;
             used <= length && length - used <= Unsigned(maxPayload)
    ensures var head := VarintsBytes(EventFields(event, false));
            HeaderAt(head + rest, length, maxPayload)
              == Ok((Event(RELIABLE_EVENT_KIND, event.channel, event.messageType, 0, []), length - |head|, |head|))
  {
    hide ParseVarint, VarintBytes;
    VarintsRoundTrip(EventFields(event, false), rest, EndOfStream);
  }

  /** A framed event is read back whole, whatever follows it, under any limit
      at least as large as the sender's. */
  lemma ReliableRoundTrip(event: Event, maxPayload: int64, receiverMax: int64, frame: Bytes, rest: Bytes)
    requires EncodeReliableEvent(event, maxPayload) == Ok(frame)
    requires maxPayload <= receiverMax
    ensures StreamedEvent(frame + rest, receiverMax)
         == Ok((Event(RELIABLE_EVENT_KIND, event.channel, event.messageType, 0, event.payload), |frame|))
  {
    hide ParseVarint, VarintBytes;
    var framed := event.(kind := RELIABLE_EVENT_KIND);
    var head := VarintsBytes(EventFields(framed, false));
    var body := head + event.payload;
    var n := VarintLen(|body|);
    var src := frame + rest;
    assert src == VarintBytes(|body|) + (body + rest);
    VarintRoundTrip(|body|, body + rest);
    var tail := src[n..];
    assert tail == head + (event.payload + rest);
    assert |body| <= maxPayload + 32;
    HeaderFound(framed, event.payload + rest, |body|, receiverMax);
    assert tail[|head|..|body|] == event.payload;
  }

  /** Conversely every accepted frame is the encoding of the event it yields. */
  lemma ReliableUnique(src: Bytes, maxPayload: int64)
    requires StreamedEvent(src, maxPayload).Ok? && maxPayload < 0x8000_0000_0000_0000 - 32
    ensures var (event, n) := StreamedEvent(src, maxPayload).value;
            EncodeReliableEvent(event, maxPayload) == Ok(src[..n])
  {
    hide ParseVarint, VarintBytes;
    var (length, n) := ParseVarint(src).value;
    var tail := src[n..];
    var (fields, used) := ParseVarints(tail, 3, EndOfStream).value;
    var (event, total) := StreamedEvent(src, maxPayload).value;
    VarintUnique(src);
    VarintsUnique(tail, 3, EndOfStream);
    assert EventFields(event, false) == fields;
    assert EventBytes(event, false) == tail[..length];
    assert src[..total] == VarintBytes(length) + tail[..length];
  }

  // ------------------------------------------------------- channel streams

  /** The events `readReliableStream` hands over before it stops. */
  function EventsOf(s: Bytes, channel: nat, maxPayload: int64): seq<Event>
    decreases |s|
  {
    match StreamedEvent(s, maxPayload)
    case Err(_) => []
    case Ok((event, n)) =>
      if event.channel != channel then [] else [event] + EventsOf(s[n..], channel, maxPayload)
  }

  /** Wire image of a list of events. */
  function Framed(events: seq<Event>, maxPayload: int64): Bytes {
    if events == [] then []
    else
      match EncodeReliableEvent(events[0], maxPayload)
      case Err(_) => []
      case Ok(frame) => frame + Framed(events[1..], maxPayload)
  }

  predicate Sendable(events: seq<Event>, channel: nat, maxPayload: int64) {
    forall i :: 0 <= i < |events| ==>
      && events[i].kind == RELIABLE_EVENT_KIND && events[i].sequence == 0 && events[i].channel == channel
      && EncodeReliableEvent(events[i], maxPayload).Ok?
  }

  /** However much of the stream has arrived, the reader has handed over a
      prefix of the events written to it; all of them once all has arrived. */
  lemma {:induction false} ChannelStreamPrefix(events: seq<Event>, channel: nat, maxPayload: int64, receiverMax: int64,
                                               cut: nat)
    requires Sendable(events, channel, maxPayload)
    requires maxPayload <= receiverMax < 0x8000_0000_0000_0000 - 32
    requires cut <= |Framed(events, maxPayload)|
    ensures EventsOf(Framed(events, maxPayload)[..cut], channel, receiverMax) <= events
    ensures cut == |Framed(events, maxPayload)| ==>
              EventsOf(Framed(events, maxPayload)[..cut], channel, receiverMax) == events
  {
    hide StreamedEvent, EncodeReliableEvent;
    var stream := Framed(events, maxPayload);
    var arrived := stream[..cut];
    if events == [] {
      assert arrived == [];
    } else {
      var frame := EncodeReliableEvent(events[0], maxPayload).value;
      var later := Framed(events[1..], maxPayload);
      if cut < |frame| {
        CutFrameRejected(events[0], maxPayload, receiverMax, cut);
        assert arrived == frame[..cut];
      } else {
        assert arrived == frame + later[..cut - |frame|];
        ReliableRoundTrip(events[0], maxPayload, receiverMax, frame, later[..cut - |frame|]);
        assert arrived[|frame|..] == later[..cut - |frame|];
        ChannelStreamPrefix(events[1..], channel, maxPayload, receiverMax, cut - |frame|);
        assert events == [events[0]] + events[1..];
      }
    }
  }

  /** The prefix of an event-channel stream. */
  function ChannelHeader(channel: nat): Bytes {
    VarintsBytes([RELIABLE_EVENT_KIND, channel])
  }

  /** What a channel's stream carries: its header, then the events. */
  function ChannelStream(channel: nat, events: seq<Event>, maxPayload: int64): Bytes {
    ChannelHeader(channel) + Framed(events, maxPayload)
  }

  /** All that `readReliableStream` makes of the bytes that have arrived: the channel
      of the header, once it is complete, and the events after it. */
  function ReadChannel(arrived: Bytes, maxPayload: int64): Option<(nat, seq<Event>)> {
    match ParseVarints(arrived, 2, EndOfStream)
    case Err(_) => None
    case Ok((fields, used)) =>
      if fields[0] != RELIABLE_EVENT_KIND || fields[1] > MAX_CHANNEL then None
      else Some((fields[1], EventsOf(arrived[used..], fields[1], maxPayload)))
  }

  /** A channel header followed by any list of encoded events parses back to that
      channel and list; of a stream cut anywhere, to nothing within the header and
      to a prefix of the list after it. */
  lemma ChannelStreamRoundTrip(channel: nat, events: seq<Event>, maxPayload: int64, receiverMax: int64, cut: nat)
    requires channel <= MAX_CHANNEL && Sendable(events, channel, maxPayload)
    requires maxPayload <= receiverMax < 0x8000_0000_0000_0000 - 32
    requires cut <= |ChannelStream(channel, events, maxPayload)|
    ensures var r := ReadChannel(ChannelStream(channel, events, maxPayload)[..cut], receiverMax);
            && (r.None? <==> cut < |ChannelHeader(channel)|)
            && (r.Some? ==> r.value.0 == channel && r.value.1 <= events)
            && (cut == |ChannelStream(channel, events, maxPayload)| ==> r == Some((channel, events)))
  {
    hide ParseVarints, Framed, EventsOf, VarintsBytes, Sendable;
    var header, frames := ChannelHeader(channel), Framed(events, maxPayload);
    var arrived := ChannelStream(channel, events, maxPayload)[..cut];
    if cut < |header| {
      assert arrived == header[..cut];
      CutFieldsRejected([RELIABLE_EVENT_KIND, channel], cut, EndOfStream);
    } else {
      var rest := frames[..cut - |header|];
      assert arrived == header + rest;
      HeaderThenRest(channel, rest, receiverMax);
      ChannelStreamPrefix(events, channel, maxPayload, receiverMax, cut - |header|);
    }
  }

  lemma HeaderThenRest(channel: nat, rest: Bytes, maxPayload: int64)
    requires channel <= MAX_CHANNEL
    ensures ReadChannel(ChannelHeader(channel) + rest, maxPayload)
         == Some((channel, EventsOf(rest, channel, maxPayload)))
  {
    hide ParseVarints, EventsOf, VarintsBytes;
    VarintsRoundTrip([RELIABLE_EVENT_KIND, channel], rest, EndOfStream);
    assert (ChannelHeader(channel) + rest)[|ChannelHeader(channel)|..] == rest;
  }

  /** No proper prefix of a list of fields has all of them. */
  lemma CutFieldsRejected(vs: seq<nat>, cut: nat, end: WireError)
    requires Fits(vs) && cut < |VarintsBytes(vs)|
    ensures ParseVarints(VarintsBytes(vs)[..cut], |vs|, end).Err?
  {
    hide ParseVarints, VarintsBytes;
    var whole := VarintsBytes(vs);
    var arrived := whole[..cut];
    if ParseVarints(arrived, |vs|, end).Ok? {
      var (found, used) := ParseVarints(arrived, |vs|, end).value;
      VarintsUnique(arrived, |vs|, end);
      assert whole == VarintsBytes(found) + whole[used..];
      VarintsRoundTrip(found, whole[used..], end);
      assert whole + [] == whole;
      VarintsRoundTrip(vs, [], end);
    }
  }

  /** No proper prefix of a frame is itself a frame. */
  lemma CutFrameRejected(event: Event, maxPayload: int64, receiverMax: int64, cut: nat)
    requires EncodeReliableEvent(event, maxPayload).Ok?
    requires maxPayload <= receiverMax < 0x8000_0000_0000_0000 - 32
    requires cut < |EncodeReliableEvent(event, maxPayload).value|
    ensures StreamedEvent(EncodeReliableEvent(event, maxPayload).value[..cut], receiverMax).Err?
  {
    hide ParseVarint, VarintBytes;
    var frame := EncodeReliableEvent(event, maxPayload).value;
    var arrived := frame[..cut];
    if StreamedEvent(arrived, receiverMax).Ok? {
      ReliableUnique(arrived, receiverMax);
      var (found, n) := StreamedEvent(arrived, receiverMax).value;
      assert frame == arrived[..n] + frame[n..];
      ReliableRoundTrip(found, receiverMax, receiverMax, arrived[..n], frame[n..]);
      assert frame + [] == frame;
      ReliableRoundTrip(event, maxPayload, receiverMax, frame, []);
    }
  }

  /** `ReadReliableEventHeader`, pulling the three fields off the stream. */
  method ReadReliableEventHeader(reader: ByteReader, length: nat, maxPayload: int64) returns (r: Result<(Event, nat)>)
    requires reader.Valid()
    modifies reader
    ensures reader.Valid()
    ensures r == match HeaderAt(old(reader.Rest()), length, maxPayload)
                 case Ok((event, payloadBytes, used)) => Ok((event, payloadBytes))
                 case Err(e) => Err(e)
    ensures r.Ok? ==> reader.Rest() == old(reader.Rest())[HeaderAt(old(reader.Rest()), length, maxPayload).value.2..]
  {
    hide ParseVarints;
    if maxPayload < 0 || length > Unsigned(maxPayload + 32) {
      return Err(TooLarge);
    }
    var fields := ReadFields(reader, 3);
    if fields.Err? {
      return Err(fields.error);
    }
    var (values, used) := fields.value;
    var event := Event(values[0], values[1], values[2], 0, []);
    if event.kind != RELIABLE_EVENT_KIND {
      return Err(InvalidKind);
    }
    if !ValidEvent(event, false) {
      return Err(Malformed);
    }
    if used > length {
      return Err(Truncated);
    }
    if length - used > Unsigned(maxPayload) {
      return Err(TooLarge);
    }
    return Ok((event, length - used));
  }

  /** `io.ReadFull`. */
  method ReadFull(reader: ByteReader, n: nat) returns (b: Bytes, complete: bool)
    requires reader.Valid()
    modifies reader
    ensures reader.Valid()
    ensures complete == (n <= |old(reader.Rest())|)
    ensures complete ==> b == old(reader.Rest())[..n] && reader.Rest() == old(reader.Rest())[n..]
  {
    ghost var s := reader.Rest();
    b := [];
    while |b| < n
      invariant reader.Valid() && |b| <= n && |b| <= |s|
      invariant b == s[..|b|] && reader.Rest() == s[|b|..]
    {
      var next, eof := reader.ReadByte();
      if eof {
        return b, false;
      }
      b := b + [next];
    }
    complete := true;
  }

  /** One pass of the reading loop: nothing when the reader stops. */
  method ReadReliableEvent(reader: ByteReader, channel: nat, maxPayload: int64) returns (r: Option<Event>)
    requires reader.Valid()
    modifies reader
    ensures reader.Valid()
    ensures var found := StreamedEvent(old(reader.Rest()), maxPayload);
            r == if found.Ok? && found.value.0.channel == channel then Some(found.value.0) else None
    ensures r.Some? ==> reader.Rest() == old(reader.Rest())[StreamedEvent(old(reader.Rest()), maxPayload).value.1..]
  {
    hide ParseVarint, HeaderAt, Unsigned, ValidEvent;
    ghost var rest := reader.Rest();
    var length := reader.ReadVarint();
    if length.Err? || length.value > Unsigned(maxPayload + 32) {
      return None;
    }
    ghost var tail := reader.Rest();
    var header := ReadReliableEventHeader(reader, length.value, maxPayload);
    if header.Err? || header.value.0.channel != channel {
      return None;
    }
    ghost var used := HeaderAt(tail, length.value, maxPayload).value.2;
    var payload, complete := ReadFull(reader, header.value.1);
    if !complete {
      return None;
    }
    assert payload == tail[used..length.value];
    assert reader.Rest() == tail[length.value..];
    return Some(header.value.0.(payload := payload));
  }

  /** The loop of `readReliableStream` after its channel is bound, with every event admitted. */
  method ReadReliableStream(reader: ByteReader, channel: nat, maxPayload: int64) returns (events: seq<Event>)
    requires reader.Valid()
    modifies reader
    ensures events == EventsOf(old(reader.Rest()), channel, maxPayload)
  {
    hide StreamedEvent;
    events := [];
    ghost var s := reader.Rest();
    while true
      invariant reader.Valid()
      invariant EventsOf(s, channel, maxPayload) == events + EventsOf(reader.Rest(), channel, maxPayload)
      decreases |reader.Rest()|
    {
      var event := ReadReliableEvent(reader, channel, maxPayload);
      if event.None? {
        return;
      }
      assert (events + [event.value]) + EventsOf(reader.Rest(), channel, maxPayload)
          == events + ([event.value] + EventsOf(reader.Rest(), channel, maxPayload));
      events := events + [event.value];
    }
  }

  // ---------------------------------------------------------------- requests

  function EncodeRequest(request: Request, maxPayload: int64): Result<Bytes> {
    if request.messageType == 0 || request.messageType > MAX_MESSAGE_TYPE || request.timeoutMS == 0
       || request.timeoutMS > MAX_TIMEOUT_MS || |request.payload| > maxPayload
    then Err(Malformed)
    else if |request.payload| > MAX_VARINT then Err(ValueTooLarge)
    else Ok(VarintsBytes(RequestFields(request)) + request.payload)
  }

  function RequestFields(request: Request): seq<nat> {
    [REQUEST_STREAM_KIND, request.messageType, request.timeoutMS, |request.payload|]
  }

  function ParseRequest(src: Bytes, maxPayload: int64): Result<Request> {
    match ParseVarints(src, 4, Truncated)
    case Err(e) => Err(e)
    case Ok((values, used)) =>
      if values[0] != REQUEST_STREAM_KIND || values[1] == 0 || values[1] > MAX_MESSAGE_TYPE
         || values[3] > Unsigned(maxPayload) || values[3] != |src| - used
         || values[2] == 0 || values[2] > MAX_TIMEOUT_MS
      then Err(Malformed)
      else Ok(Request(values[1], values[2], src[used..]))
  }

  /** `DecodeRequest`, with its loop over four fields. */
  method DecodeRequest(src: Bytes, maxPayload: int64) returns (r: Result<Request>)
    ensures r == ParseRequest(src, maxPayload)
  {
    hide ParseVarints;
    var fields := DecodeFields(src, 4);
    if fields.Err? {
      return Err(fields.error);
    }
    var (values, used) := fields.value;
    if values[0] != REQUEST_STREAM_KIND || values[1] == 0 || values[1] > MAX_MESSAGE_TYPE
       || values[3] > Unsigned(maxPayload) || values[3] != |src| - used
       || values[2] == 0 || values[2] > MAX_TIMEOUT_MS
    {
      return Err(Malformed);
    }
    return Ok(Request(values[1], values[2], src[used..]));
  }

  /** Requests: for a non-negative limit encoder and decoder are mutual inverses. */
  lemma RequestBijection(request: Request, src: Bytes, maxPayload: int64)
    requires 0 <= maxPayload
    ensures EncodeRequest(request, maxPayload) == Ok(src) <==> ParseRequest(src, maxPayload) == Ok(request)
  {
    hide ParseVarint, VarintBytes;
    var fields := RequestFields(request);
    if EncodeRequest(request, maxPayload) == Ok(src) {
      VarintsRoundTrip(fields, request.payload, Truncated);
      assert src[|VarintsBytes(fields)|..] == request.payload;
    }
    if ParseRequest(src, maxPayload) == Ok(request) {
      VarintsUnique(src, 4, Truncated);
      var values := ParseVarints(src, 4, Truncated).value.0;
      assert values == fields;
    }
  }

  predicate RequestInverse(request: Request, src: Bytes, maxPayload: int64) {
    EncodeRequest(request, maxPayload) == Ok(src) <==> ParseRequest(src, maxPayload) == Ok(request)
  }

  /** A negative limit is refused by the encoder and ignored by the slice decoder. */
  lemma RequestBijectionExact(maxPayload: int64)
    ensures (forall request, src :: RequestInverse(request, src, maxPayload)) <==> maxPayload >= 0
  {
    if maxPayload >= 0 {
      forall request, src ensures RequestInverse(request, src, maxPayload) {
        RequestBijection(request, src, maxPayload);
      }
    } else {
      var request := Request(1, 1, []);
      var src := EncodeRequest(request, 0).value;
      RequestBijection(request, src, 0);
      assert !RequestInverse(request, src, maxPayload);
    }
  }

  /** What the stream reader makes of a request: kind, header, body, and the bytes it
      took. It does not look at what follows. */
  function StreamedRequest(s: Bytes, maxPayload: int64): Result<(Request, nat)> {
    match ParseVarints(s, 4, EndOfStream)
    case Err(e) => Err(e)
    case Ok((values, used)) =>
      if maxPayload < 0 || values[0] != REQUEST_STREAM_KIND || values[1] == 0 || values[1] > MAX_MESSAGE_TYPE
         || values[2] == 0 || values[2] > MAX_TIMEOUT_MS || values[3] > Unsigned(maxPayload)
      then Err(Malformed)
      else if |s| - used < values[3] then Err(EndOfStream)
      else Ok((Request(values[1], values[2], s[used..used + values[3]]), used + values[3]))
  }

  /** The stream reader takes a request off the front exactly when the slice decoder accepts those bytes. */
  predicate PrefixAgrees(s: Bytes, n: nat, request: Request, maxPayload: int64) {
    n <= |s| ==>
      (StreamedRequest(s, maxPayload) == Ok((request, n)) <==> ParseRequest(s[..n], maxPayload) == Ok(request))
  }

  /** For every byte string the stream reader accepts exactly what the slice decoder
      accepts of some prefix, the same request and that prefix, if and only if the
      limit is not negative. */
  lemma RequestReadersAgree(maxPayload: int64)
    ensures (forall s, n, request :: PrefixAgrees(s, n, request, maxPayload)) <==> maxPayload >= 0
  {
    hide PrefixAgrees;
    if maxPayload >= 0 {
      forall s: Bytes, n: nat, request ensures PrefixAgrees(s, n, request, maxPayload) {
        RequestPrefix(s, n, request, maxPayload);
      }
    } else {
      NegativeLimitDiffers(maxPayload);
    }
  }

  lemma NegativeLimitDiffers(maxPayload: int64)
    requires maxPayload < 0
    ensures exists s, n, request :: !PrefixAgrees(s, n, request, maxPayload)
  {
    var request := Request(1, 1, []);
    var s := EncodeRequest(request, 0).value;
    RequestBijection(request, s, 0);
    assert s[..|s|] == s;
    assert !PrefixAgrees(s, |s|, request, maxPayload);
  }

  lemma RequestPrefix(s: Bytes, n: nat, request: Request, maxPayload: int64)
    requires maxPayload >= 0
    ensures PrefixAgrees(s, n, request, maxPayload)
  {
    hide ParseVarints, VarintsBytes;
    if n <= |s| {
      if StreamedRequest(s, maxPayload) == Ok((request, n)) {
        var (values, used) := ParseVarints(s, 4, EndOfStream).value;
        VarintsUnique(s, 4, EndOfStream);
        assert s[..n] == VarintsBytes(values) + request.payload;
        VarintsRoundTrip(values, request.payload, Truncated);
        assert s[..n][used..] == request.payload;
      }
      if ParseRequest(s[..n], maxPayload) == Ok(request) {
        var (values, used) := ParseVarints(s[..n], 4, Truncated).value;
        VarintsUnique(s[..n], 4, Truncated);
        assert s == VarintsBytes(values) + s[used..];
        VarintsRoundTrip(values, s[used..], EndOfStream);
        assert s[..n][used..] == s[used..n];
      }
    }
  }

  /** `readApplicationStream` and its request branch, up to the dispatch. */
  method ReadRequest(reader: ByteReader, maxPayload: int64) returns (r: Option<Request>)
    requires reader.Valid()
    modifies reader
    ensures reader.Valid()
    ensures var found := StreamedRequest(old(reader.Rest()), maxPayload);
            r == if found.Ok? then Some(found.value.0) else None
    ensures r.Some? ==> reader.Rest() == old(reader.Rest())[StreamedRequest(old(reader.Rest()), maxPayload).value.1..]
  {
    hide ParseVarint, ParseVarints, Unsigned;
    ghost var s := reader.Rest();
    KindThenHeader(s);
    var kind := reader.ReadVarint();
    if kind.Err? || kind.value != REQUEST_STREAM_KIND || maxPayload < 0 {
      return None;
    }
    var fields := ReadFields(reader, 3);
    if fields.Err? {
      return None;
    }
    var values := fields.value.0;
    if values[0] == 0 || values[0] > MAX_MESSAGE_TYPE || values[1] == 0 || values[1] > MAX_TIMEOUT_MS
       || values[2] > Unsigned(maxPayload)
    {
      return None;
    }
    ghost var used := ParseVarints(s, 4, EndOfStream).value.1;
    assert reader.Rest() == s[used..];
    var payload, complete := ReadFull(reader, values[2]);
    if !complete {
      return None;
    }
    assert payload == s[used..used + values[2]] && reader.Rest() == s[used + values[2]..];
    return Some(Request(values[0], values[1], payload));
  }

  lemma KindThenHeader(s: Bytes)
    ensures ParseVarint(s).Err? ==> ParseVarints(s, 4, EndOfStream).Err?
    ensures ParseVarint(s).Ok? ==>
              var (kind, n) := ParseVarint(s).value;
              var whole, header := ParseVarints(s, 4, EndOfStream), ParseVarints(s[n..], 3, EndOfStream);
              && (whole.Ok? <==> header.Ok?)
              && (whole.Ok? ==> whole.value == ([kind] + header.value.0, n + header.value.1)
                                && s[n..][header.value.1..] == s[n + header.value.1..])
  {
    hide ParseVarint;
  }

  // --------------------------------------------------------------- responses

  /** `utf8.Valid`: shortest forms only, no surrogates, nothing above U+10FFFF. */
  predicate ValidUtf8(b: Bytes)
    decreases |b|
  {
    if b == [] then true
    else if b[0] < 0x80 then ValidUtf8(b[1..])
    else if 0xC2 <= b[0] <= 0xDF then |b| >= 2 && Continues(b[1]) && ValidUtf8(b[2..])
    else if 0xE0 <= b[0] <= 0xEF then
      && |b| >= 3 && Continues(b[1]) && Continues(b[2])
      && (b[0] == 0xE0 ==> b[1] >= 0xA0) && (b[0] == 0xED ==> b[1] <= 0x9F)
      && ValidUtf8(b[3..])
    else
      && 0xF0 <= b[0] <= 0xF4
      && |b| >= 4 && Continues(b[1]) && Continues(b[2]) && Continues(b[3])
      && (b[0] == 0xF0 ==> b[1] >= 0x90) && (b[0] == 0xF4 ==> b[1] <= 0x8F)
      && ValidUtf8(b[4..])
  }

  predicate Continues(b: byte) {
    0x80 <= b <= 0xBF
  }

  function EncodeResponse(response: Response, maxPayload: int64): Result<Bytes> {
    if |response.payload| > maxPayload then Err(TooLarge)
    else if response.status != 0 && (|response.payload| > MAX_DIAGNOSTIC_BYTES || !ValidUtf8(response.payload))
    then Err(Malformed)
    else if !Fits([response.status, |response.payload|]) then Err(ValueTooLarge)
    else Ok(VarintsBytes([response.status, |response.payload|]) + response.payload)
  }

  function DecodeResponse(src: Bytes, maxPayload: int64): Result<Response> {
    match ParseVarint(src)
    case Err(e) => Err(e)
    case Ok((status, n)) =>
      match ParseVarint(src[n..])
      case Err(e) => Err(e)
      case Ok((length, m)) =>
        if length > Unsigned(maxPayload) || length != |src| - n - m
           || (status != 0 && (length > MAX_DIAGNOSTIC_BYTES || !ValidUtf8(src[n + m..])))
        then Err(Malformed)
        else Ok(Response(status, src[n + m..]))
  }

  /** What `Call` accepts: header, body, end of stream, then the diagnostic check. */
  function StreamedResponse(s: Bytes, maxPayload: int64): Result<Response> {
    if maxPayload < 0 then Err(Malformed)
    else
      match ParseVarints(s, 2, EndOfStream)
      case Err(e) => Err(e)
      case Ok((fields, used)) =>
        var status, length := fields[0], fields[1];
        if length > Unsigned(maxPayload) || (status != 0 && length > MAX_DIAGNOSTIC_BYTES) then Err(Malformed)
        else if |s| - used < length then Err(EndOfStream)
        else if |s| - used > length then Err(Malformed)
        else if status != 0 && !ValidUtf8(s[used..]) then Err(Malformed)
        else Ok(Response(status, s[used..]))
  }

  lemma TwoFields(src: Bytes, end: WireError)
    ensures ParseVarints(src, 2, end).Ok? <==> ParseVarint(src).Ok? && ParseVarint(src[ParseVarint(src).value.1..]).Ok?
    ensures ParseVarints(src, 2, end).Ok? ==>
              var (a, n) := ParseVarint(src).value;
              var (b, m) := ParseVarint(src[n..]).value;
              ParseVarints(src, 2, end) == Ok(([a, b], n + m))
  {
    hide ParseVarint;
    if ParseVarint(src).Ok? {
      var (a, n) := ParseVarint(src).value;
      var rest := src[n..];
      OneField(rest, end);
      if ParseVarint(rest).Ok? {
        assert [a] + [ParseVarint(rest).value.0] == [a, ParseVarint(rest).value.0];
      }
    }
  }

  /** The reply reader of `Call` and `DecodeResponse` agree on every byte string exactly
      when the limit is not negative. */
  lemma ResponseReadersAgree(maxPayload: int64)
    ensures (forall src ::
              && (StreamedResponse(src, maxPayload).Ok? <==> DecodeResponse(src, maxPayload).Ok?)
              && (DecodeResponse(src, maxPayload).Ok? ==>
                    StreamedResponse(src, maxPayload) == DecodeResponse(src, maxPayload)))
       <==> maxPayload >= 0
  {
    if maxPayload >= 0 {
      forall src
        ensures StreamedResponse(src, maxPayload).Ok? <==> DecodeResponse(src, maxPayload).Ok?
        ensures DecodeResponse(src, maxPayload).Ok? ==>
                  StreamedResponse(src, maxPayload) == DecodeResponse(src, maxPayload)
      {
        TwoFields(src, EndOfStream);
      }
    } else {
      var src := EncodeResponse(Response(0, []), 0).value;
      ResponseBijection(Response(0, []), src, 0);
      assert DecodeResponse(src, maxPayload).Ok? && StreamedResponse(src, maxPayload).Err?;
    }
  }

  /** Responses: for a non-negative limit encoder and decoder are mutual inverses. */
  lemma ResponseBijection(response: Response, src: Bytes, maxPayload: int64)
    requires 0 <= maxPayload
    ensures EncodeResponse(response, maxPayload) == Ok(src) <==> DecodeResponse(src, maxPayload) == Ok(response)
  {
    hide ParseVarint, VarintBytes;
    var fields := [response.status, |response.payload|];
    TwoFields(src, Truncated);
    if EncodeResponse(response, maxPayload) == Ok(src) {
      VarintsRoundTrip(fields, response.payload, Truncated);
      assert fields[0] == response.status && fields[1] == |response.payload|;
      assert src[|VarintsBytes(fields)|..] == response.payload;
    }
    if DecodeResponse(src, maxPayload) == Ok(response) {
      VarintsUnique(src, 2, Truncated);
      assert ParseVarints(src, 2, Truncated).value.0 == fields;
    }
  }

  predicate ResponseInverse(response: Response, src: Bytes, maxPayload: int64) {
    EncodeResponse(response, maxPayload) == Ok(src) <==> DecodeResponse(src, maxPayload) == Ok(response)
  }

  /** As for requests, a negative limit is refused by the encoder and ignored by the slice decoder. */
  lemma ResponseBijectionExact(maxPayload: int64)
    ensures (forall response, src :: ResponseInverse(response, src, maxPayload)) <==> maxPayload >= 0
  {
    if maxPayload >= 0 {
      forall response, src ensures ResponseInverse(response, src, maxPayload) {
        ResponseBijection(response, src, maxPayload);
      }
    } else {
      var response := Response(0, []);
      var src := EncodeResponse(response, 0).value;
      ResponseBijection(response, src, 0);
      assert !ResponseInverse(response, src, maxPayload);
    }
  }

  // ---------------------------------------------------- custom stream header

  function EncodeCustomStreamHeader(messageType: nat): Result<Bytes> {
    if messageType == 0 || messageType > MAX_MESSAGE_TYPE then Err(Malformed)
    else Ok(VarintsBytes([CUSTOM_STREAM_KIND, messageType]))
  }

  function DecodeCustomStreamHeader(src: Bytes): Result<nat> {
    match ParseVarint(src)
    case Err(e) => Err(e)
    case Ok((kind, n)) =>
      if kind != CUSTOM_STREAM_KIND then Err(InvalidKind)
      else
        match ParseVarint(src[n..])
        case Err(e) => Err(e)
        case Ok((messageType, m)) =>
          if n + m != |src| then Err(ExtraHeaderBytes)
          else if messageType == 0 || messageType > MAX_MESSAGE_TYPE then Err(Malformed)
          else Ok(messageType)
  }

  lemma CustomHeaderBijection(messageType: nat, src: Bytes)
    ensures EncodeCustomStreamHeader(messageType) == Ok(src) <==> DecodeCustomStreamHeader(src) == Ok(messageType)
  {
    hide ParseVarint, VarintBytes;
    var fields := [CUSTOM_STREAM_KIND, messageType];
    TwoFields(src, Truncated);
    if EncodeCustomStreamHeader(messageType) == Ok(src) {
      VarintsRoundTrip(fields, [], Truncated);
      assert src + [] == src && fields[0] == CUSTOM_STREAM_KIND && fields[1] == messageType;
    }
    if DecodeCustomStreamHeader(src) == Ok(messageType) {
      VarintsUnique(src, 2, Truncated);
      assert src[|src|..] == [] && VarintsBytes(fields) + [] == VarintsBytes(fields);
      assert ParseVarints(src, 2, Truncated).value.0 == fields;
    }
  }

  // ----------------------------------------------------------- what is accepted

  /** Which events can be sent reliably: exactly those of a channel up to 65535 and a type
      from 1 to 2^32 - 1 whose payload fits; the 32 bytes beyond the payload limit are
      always enough for the rest. */
  lemma ReliableEncodable(event: Event, maxPayload: int64)
    requires maxPayload <= MAX_VARINT - 32
    ensures EncodeReliableEvent(event, maxPayload).Ok? <==>
              && event.kind <= 1 && 0 <= |event.payload| <= maxPayload
              && event.channel <= 65535 && 1 <= event.messageType <= 4294967295
  {
    hide VarintBytes;
    if event.channel <= 65535 && event.messageType <= 4294967295 {
      var framed := event.(kind := RELIABLE_EVENT_KIND);
      ThreeFields(RELIABLE_EVENT_KIND, event.channel, event.messageType);
      assert EventFields(framed, false) == [RELIABLE_EVENT_KIND, event.channel, event.messageType];
      assert |EventBytes(framed, false)| <= |event.payload| + 13;
    }
  }

  lemma ThreeFields(a: nat, b: nat, c: nat)
    ensures VarintsBytes([a, b, c]) == VarintBytes(a) + VarintBytes(b) + VarintBytes(c)
  {
    hide VarintBytes;
    assert [a, b, c][1..] == [b, c] && [b, c][1..] == [c] && [c][1..] == [];
    assert VarintsBytes([c]) == VarintBytes(c) + VarintsBytes([]);
  }

  lemma FourFields(a: nat, b: nat, c: nat, d: nat)
    ensures VarintsBytes([a, b, c, d]) == VarintBytes(a) + VarintBytes(b) + VarintBytes(c) + VarintBytes(d)
  {
    hide VarintBytes;
    assert [a, b, c, d][1..] == [b, c, d];
    ThreeFields(b, c, d);
  }

  /** A reliable frame on the wire: the length of what follows, kind 1, channel, type, payload. */
  lemma ReliableLayout(event: Event, maxPayload: int64)
    requires EncodeReliableEvent(event, maxPayload).Ok?
    ensures var body := VarintBytes(1) + VarintBytes(event.channel) + VarintBytes(event.messageType) + event.payload;
            EncodeReliableEvent(event, maxPayload) == Ok(VarintBytes(|body|) + body)
  {
    hide VarintBytes;
    ThreeFields(RELIABLE_EVENT_KIND, event.channel, event.messageType);
    var framed := event.(kind := RELIABLE_EVENT_KIND);
    assert EventFields(framed, false) == [RELIABLE_EVENT_KIND, event.channel, event.messageType];
  }

  /** A datagram on the wire: kind 2 with channel, type and payload, or kind 3 with the
      sequence number before the payload; sendable exactly when valid and within the limit. */
  lemma DatagramLayout(event: Event, maxBytes: int64)
    requires event.channel <= 65535 && 1 <= event.messageType <= 4294967295 && event.sequence <= MAX_VARINT
    requires event.kind == 2 || (event.kind == 3 && event.sequence >= 1)
    ensures var head := VarintBytes(event.kind) + VarintBytes(event.channel) + VarintBytes(event.messageType);
            var bytes := head + (if event.kind == 3 then VarintBytes(event.sequence) else []) + event.payload;
            EncodeDatagram(event, maxBytes) == if |bytes| <= maxBytes then Ok(bytes) else Err(TooLarge)
  {
    hide VarintBytes;
    ThreeFields(event.kind, event.channel, event.messageType);
    FourFields(event.kind, event.channel, event.messageType, event.sequence);
    var head := VarintBytes(event.kind) + VarintBytes(event.channel) + VarintBytes(event.messageType);
    assert EventFields(event, true) == [event.kind, event.channel, event.messageType, event.sequence];
    assert EventFields(event, false) == [event.kind, event.channel, event.messageType];
    assert head + [] == head;
  }

  /** A datagram of another kind, channel, type or sequence number is not sent. */
  lemma DatagramRefused(event: Event, maxBytes: int64)
    requires event.channel > 65535 || event.messageType == 0 || event.messageType > 4294967295
             || (event.kind != 2 && event.kind != 3) || (event.kind == 3 && event.sequence == 0)
    ensures EncodeDatagram(event, maxBytes).Err?
  {
  }

  /** A request on the wire: kind 2, type, timeout, length and payload; sendable exactly for a type
      from 1 to 2^32 - 1, a timeout from 1 to 300000 ms and a payload within the limit. */
  lemma RequestLayout(request: Request, maxPayload: int64)
    requires |request.payload| <= MAX_VARINT
    ensures EncodeRequest(request, maxPayload).Ok? <==>
              && 1 <= request.messageType <= 4294967295 && 1 <= request.timeoutMS <= 300000
              && |request.payload| <= maxPayload
    ensures EncodeRequest(request, maxPayload).Ok? ==>
              EncodeRequest(request, maxPayload).value
              == VarintBytes(2) + VarintBytes(request.messageType) + VarintBytes(request.timeoutMS)
                 + VarintBytes(|request.payload|) + request.payload
  {
    hide VarintBytes;
    FourFields(REQUEST_STREAM_KIND, request.messageType, request.timeoutMS, |request.payload|);
  }

  /** A response on the wire: status, length and payload; a failure carries at most 256 bytes of UTF-8. */
  lemma ResponseLayout(response: Response, maxPayload: int64)
    requires |response.payload| <= MAX_VARINT && response.status <= MAX_VARINT
    ensures EncodeResponse(response, maxPayload).Ok? <==>
              && |response.payload| <= maxPayload
              && (response.status != 0 ==> |response.payload| <= 256 && ValidUtf8(response.payload))
    ensures EncodeResponse(response, maxPayload).Ok? ==>
              EncodeResponse(response, maxPayload).value
              == VarintBytes(response.status) + VarintBytes(|response.payload|) + response.payload
  {
    hide VarintBytes, ValidUtf8;
    var a, b := response.status, |response.payload|;
    assert [a, b][1..] == [b];
    assert VarintsBytes([b]) == VarintBytes(b) + VarintsBytes([]);
  }

  /** The two stream headers: kind 1 and the channel, kind 3 and the type. */
  lemma HeaderLayouts(channel: nat, messageType: nat)
    ensures ChannelHeader(channel) == VarintBytes(1) + VarintBytes(channel)
    ensures EncodeCustomStreamHeader(messageType)
         == if 1 <= messageType <= 4294967295 then Ok(VarintBytes(3) + VarintBytes(messageType)) else Err(Malformed)
  {
    hide VarintBytes;
    assert [RELIABLE_EVENT_KIND, channel][1..] == [channel] && [CUSTOM_STREAM_KIND, messageType][1..] == [messageType];
    assert VarintsBytes([channel]) == VarintBytes(channel) + VarintsBytes([]);
    assert VarintsBytes([messageType]) == VarintBytes(messageType) + VarintsBytes([]);
    assert VarintsBytes([CUSTOM_STREAM_KIND, messageType]) == VarintBytes(3) + VarintBytes(messageType);
  }

  // -------------------------------------------------------------------- UTF-8

  /** A Unicode scalar value: a code point that is not a surrogate. */
  predicate Scalar(u: nat) {
    u < 0xD800 || 0xE000 <= u < 0x110000
  }

  /** The UTF-8 form of a scalar value (section 3 of RFC 3629). */
  function Utf8(u: nat): Bytes
    requires Scalar(u)
  {
    if u < 0x80 then [u]
    else if u < 0x800 then [0xC0 + u / 64, 0x80 + u % 64]
    else if u < 0x1_0000 then [0xE0 + u / 4096, 0x80 + u / 64 % 64, 0x80 + u % 64]
    else [0xF0 + u / 262144, 0x80 + u / 4096 % 64, 0x80 + u / 64 % 64, 0x80 + u % 64]
  }

  function Utf8Text(text: seq<nat>): Bytes
    requires forall i :: 0 <= i < |text| ==> Scalar(text[i])
  {
    if text == [] then [] else Utf8(text[0]) + Utf8Text(text[1..])
  }

  ghost predicate IsText(b: Bytes) {
    exists text: seq<nat> :: (forall i :: 0 <= i < |text| ==> Scalar(text[i])) && b == Utf8Text(text)
  }

  /** The bytes accepted as a diagnostic are exactly the UTF-8 forms of texts. */
  lemma Utf8IsExact(b: Bytes)
    ensures ValidUtf8(b) <==> IsText(b)
  {
    if ValidUtf8(b) {
      var text := Decoded(b);
      assert IsText(b);
    }
    if IsText(b) {
      var text: seq<nat> :| (forall i :: 0 <= i < |text| ==> Scalar(text[i])) && b == Utf8Text(text);
      TextIsValid(text);
    }
  }

  lemma {:induction false} TextIsValid(text: seq<nat>)
    requires forall i :: 0 <= i < |text| ==> Scalar(text[i])
    ensures ValidUtf8(Utf8Text(text))
  {
    if text != [] {
      TextIsValid(text[1..]);
      ScalarThenRest(text[0], Utf8Text(text[1..]));
    }
  }

  lemma ScalarThenRest(u: nat, rest: Bytes)
    requires Scalar(u) && ValidUtf8(rest)
    ensures ValidUtf8(Utf8(u) + rest)
  {
    var b := Utf8(u) + rest;
    assert b[|Utf8(u)|..] == rest;
  }

  lemma {:induction false} Decoded(b: Bytes) returns (text: seq<nat>)
    requires ValidUtf8(b)
    ensures (forall i :: 0 <= i < |text| ==> Scalar(text[i])) && b == Utf8Text(text)
    decreases |b|
  {
    if b == [] {
      return [];
    }
    var u, n := FirstScalar(b);
    var rest := Decoded(b[n..]);
    text := [u] + rest;
    assert text[1..] == rest;
    assert b == b[..n] + b[n..];
  }

  /** The scalar value that a valid sequence of bytes starts with, and the length of its form. */
  lemma FirstScalar(b: Bytes) returns (u: nat, n: nat)
    requires ValidUtf8(b) && b != []
    ensures Scalar(u) && 1 <= n <= |b| && b[..n] == Utf8(u) && ValidUtf8(b[n..])
  {
    hide Utf8;
    var a: int := b[0];
    if a < 0x80 {
      u, n := a, 1;
      OneByte(u);
    } else if a <= 0xDF {
      n := 2;
      u := TwoBytes(a - 0xC0, b[1] - 0x80);
    } else if a <= 0xEF {
      n := 3;
      u := ThreeBytes(a - 0xE0, b[1] - 0x80, b[2] - 0x80);
    } else {
      n := 4;
      u := FourBytes(a - 0xF0, b[1] - 0x80, b[2] - 0x80, b[3] - 0x80);
    }
  }

  lemma OneByte(u: nat)
    requires u < 0x80
    ensures Utf8(u) == [u]
  {
  }

  lemma TwoBytes(d: nat, c: nat) returns (u: nat)
    requires 2 <= d < 32 && c < 64
    ensures Scalar(u) && Utf8(u) == [0xC0 + d, 0x80 + c]
  {
    u := d * 64 + c;
  }

  lemma ThreeBytes(e: nat, d: nat, c: nat) returns (u: nat)
    requires e < 16 && d < 64 && c < 64
    requires (e == 0 ==> d >= 32) && (e == 13 ==> d < 32)
    ensures Scalar(u) && Utf8(u) == [0xE0 + e, 0x80 + d, 0x80 + c]
  {
    u := e * 4096 + d * 64 + c;
    assert u / 64 == e * 64 + d;
  }

  lemma FourBytes(f: nat, e: nat, d: nat, c: nat) returns (u: nat)
    requires f <= 4 && e < 64 && d < 64 && c < 64
    requires (f == 0 ==> e >= 16) && (f == 4 ==> e < 16)
    ensures Scalar(u) && Utf8(u) == [0xF0 + f, 0x80 + e, 0x80 + d, 0x80 + c]
  {
    u := f * 262144 + e * 4096 + d * 64 + c;
    assert u / 64 == f * 4096 + e * 64 + d;
    assert u / 4096 == f * 64 + e;
  }
}
