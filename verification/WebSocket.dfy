// The framing of the kitchen screensaver's WebSocket client (sections 5.2 to
// 5.5 of RFC 6455) over a byte stream that arrives in chunks of any size.

module WebSocket {
  import opened OctetStrings
  import opened Options
  import opened Sockets

  const CONTINUATION := 0x0
  const TEXT := 0x1
  const BINARY := 0x2
  const CLOSE := 0x8
  const PING := 0x9
  const PONG := 0xA

  // A frame with its payload unmasked, and how much of the stream it takes.
  datatype Frame = Frame(fin: bool, opcode: nat, payload: Bytes)

  datatype Parsed = Parsed(frame: Frame, size: nat)

  // ---- one frame

  function Masked(payload: Bytes, mask: Bytes): Bytes
    requires |mask| == 4
  {
    seq(|payload|, i requires 0 <= i < |payload| => Xor(payload[i], mask[i % 4]))
  }

  lemma MaskedTwice(payload: Bytes, mask: Bytes)
    requires |mask| == 4
    ensures Masked(Masked(payload, mask), mask) == payload
  {
    forall i | 0 <= i < |payload| ensures Masked(Masked(payload, mask), mask)[i] == payload[i] {
      XorInvolution(payload[i], mask[i % 4]);
    }
  }

  // Octet `i` is masked bit by bit with octet i mod 4 of the key (section 5.3).
  lemma MaskedBit(payload: Bytes, mask: Bytes, i: nat, j: nat)
    requires |mask| == 4 && i < |payload| && j < 8
    ensures |Masked(payload, mask)| == |payload|
    ensures Bit(Masked(payload, mask)[i], j) == if Bit(payload[i], j) == Bit(mask[i % 4], j) then 0 else 1
  {
    XorBit(payload[i], mask[i % 4], j);
  }

  // How many octets the extended length takes.
  function LengthSize(short: nat): nat {
    if short == 126 then 2 else if short == 127 then 8 else 0
  }

  // The first frame of the stream, if it is all there.
  function ParseFrame(s: Bytes): (r: Option<Parsed>)
    ensures r.Some? ==> 2 <= r.value.size <= |s|
  {
    if |s| < 2 then None
    else
      var short := s[1] % 128;
      var k := LengthSize(short);
      if |s| < 2 + k then None
      else
        var n := if k == 0 then short else Uint(s[2..2 + k]);
        var m := if s[1] >= 128 then 4 else 0;
        if |s| < 2 + k + m + n then None
        else
          var raw := s[2 + k + m..2 + k + m + n];
          var payload := if m == 4 then Masked(raw, s[2 + k..2 + k + 4]) else raw;
          Some(Parsed(Frame(s[0] >= 128, s[0] % 16, payload), 2 + k + m + n))
  }

  lemma LengthBound(s: Bytes)
    requires ParseFrame(s).Some?
    ensures |ParseFrame(s).value.frame.payload| < Pow256(8)
  {
    var k := LengthSize(s[1] % 128);
    assert Pow256(2) == 65536 && Pow256(4) == 65536 * 65536 && Pow256(6) == 65536 * Pow256(4);
    UintInRange(s[2..2 + k]);
  }

  // Any frame as a peer may put it on the wire: reserved bits, a mask or none,
  // any length form that fits.
  datatype Wire = Wire(fin: bool, reserved: nat, opcode: nat, mask: Option<Bytes>, form: nat, payload: Bytes)

  predicate ValidWire(w: Wire) {
    && w.reserved < 8 && w.opcode < 16 && (w.mask.Some? ==> |w.mask.value| == 4)
    && (w.form == 0 || w.form == 2 || w.form == 8)
    && |w.payload| < (if w.form == 0 then 126 else Pow256(w.form))
  }

  function Encode(w: Wire): Bytes
    requires ValidWire(w)
  {
    var short := if w.form == 0 then |w.payload| else if w.form == 2 then 126 else 127;
    [((if w.fin then 128 else 0) + 16 * w.reserved + w.opcode),
     ((if w.mask.Some? then 128 else 0) + short)]
    + BigEndian(|w.payload|, w.form)
    + (if w.mask.Some? then w.mask.value + Masked(w.payload, w.mask.value) else w.payload)
  }

  // A frame in its parts: two octets, extended length, key, payload.
  lemma ParseOfParts(head: Bytes, extended: Bytes, key: Bytes, raw: Bytes, rest: Bytes)
    requires |head| == 2 && |extended| == LengthSize(head[1] % 128)
    requires |key| == if head[1] >= 128 then 4 else 0
    requires |raw| == if extended == [] then head[1] % 128 else Uint(extended)
    ensures ParseFrame(head + extended + key + raw + rest) ==
            Some(Parsed(Frame(head[0] >= 128, head[0] % 16, if key == [] then raw else Masked(raw, key)),
                        2 + |extended| + |key| + |raw|))
  {
    hide Uint, Masked, Pow256;
    FrameSlices(head, extended, key, raw, rest);
  }

  lemma FrameSlices(head: Bytes, extended: Bytes, key: Bytes, raw: Bytes, rest: Bytes)
    requires |head| == 2
    ensures var s, k, m := head + extended + key + raw + rest, |extended|, |key|;
            && |s| == 2 + k + m + |raw| + |rest| && s[0] == head[0] && s[1] == head[1]
            && s[2..2 + k] == extended && s[2 + k..2 + k + m] == key && s[2 + k + m..2 + k + m + |raw|] == raw
  {}

  lemma ParseOfEncode(w: Wire, rest: Bytes)
    requires ValidWire(w)
    ensures ParseFrame(Encode(w) + rest) == Some(Parsed(Frame(w.fin, w.opcode, w.payload), |Encode(w)|))
  {
    hide ParseFrame, Masked, BigEndian, Uint, Pow256;
    var n := |w.payload|;
    var short := if w.form == 0 then n else if w.form == 2 then 126 else 127;
    var first, second := (if w.fin then 128 else 0) + 16 * w.reserved + w.opcode, (if w.mask.Some? then 128 else 0) + short;
    HeadOctets(w.fin, w.reserved, w.opcode, w.mask.Some?, short);
    var head: Bytes := [first, second];
    var extended := BigEndian(n, w.form);
    if w.form > 0 {
      UintOfBigEndian(n, w.form);
    }
    var key := if w.mask.Some? then w.mask.value else [];
    var raw := if w.mask.Some? then Masked(w.payload, key) else w.payload;
    if w.mask.Some? {
      MaskedTwice(w.payload, key);
    }
    assert |raw| == n by {
      MaskedLength(w.payload, key);
    }
    ParseOfParts(head, extended, key, raw, rest);
    assert Encode(w) + rest == head + extended + key + raw + rest;
  }

  // A frame that is cut short is never taken for one.
  lemma CutFrame(w: Wire, n: nat)
    requires ValidWire(w) && n < |Encode(w)|
    ensures ParseFrame(Encode(w)[..n]) == None
  {
    hide Masked, BigEndian, Uint, Pow256;
    ParseOfEncode(w, []);
    assert Encode(w) + [] == Encode(w);
    FirstOctets(Encode(w), n);
  }

  // How long a frame is shows in its first octets.
  lemma FirstOctets(s: Bytes, n: nat)
    requires ParseFrame(s).Some? && ParseFrame(s).value.size == |s| && n < |s|
    ensures ParseFrame(s[..n]) == None
  {
    hide Masked, Uint;
    var t := s[..n];
    if n >= 2 {
      var k := LengthSize(s[1] % 128);
      if n >= 2 + k {
        assert t[2..2 + k] == s[2..2 + k];
      }
    }
  }

  lemma ShortStream(s: Bytes)
    requires |s| >= 2 && |s| < 2 + LengthSize(s[1] % 128)
    ensures ParseFrame(s) == None
  {}

  // Too little after the extended length.
  lemma CutInside(head: Bytes, extended: Bytes, tail: Bytes)
    requires |head| == 2 && |extended| == LengthSize(head[1] % 128)
    requires |tail| < (if head[1] >= 128 then 4 else 0) + if extended == [] then head[1] % 128 else Uint(extended)
    ensures ParseFrame(head + extended + tail) == None
  {
    hide Uint, Masked;
    var s := head + extended + tail;
    assert s[0] == head[0] && s[1] == head[1] && s[2..2 + |extended|] == extended;
  }

  lemma MaskedLength(payload: Bytes, key: Bytes)
    ensures |key| == 4 ==> |Masked(payload, key)| == |payload|
  {}

  lemma HeadOctets(fin: bool, reserved: nat, opcode: nat, masked: bool, short: nat)
    requires reserved < 8 && opcode < 16 && short < 128
    ensures var first := (if fin then 128 else 0) + 16 * reserved + opcode;
            first < 256 && first % 16 == opcode && (first >= 128 <==> fin)
    ensures var second := (if masked then 128 else 0) + short;
            second < 256 && second % 128 == short && (second >= 128 <==> masked)
  {}

  // ---- sending

  // The shortest form that holds the length.
  function ShortestForm(n: nat): nat {
    if n < 126 then 0 else if n < 65536 then 2 else 8
  }

  // What `_send_frame` puts on the wire; a length over 64 bits is an error.
  function SentFrame(opcode: nat, payload: Bytes, mask: Bytes): Option<Bytes>
    requires opcode < 16 && |mask| == 4
  {
    var n := |payload|;
    var first := [(128 + opcode)];
    if n < 126 then Some(first + [(128 + n)] + mask + Masked(payload, mask))
    else if n < 65536 then Some(first + [254] + BigEndian(n, 2) + mask + Masked(payload, mask))
    else if n < Pow256(8) then Some(first + [255] + BigEndian(n, 8) + mask + Masked(payload, mask))
    else None
  }

  lemma SentIsEncoded(opcode: nat, payload: Bytes, mask: Bytes)
    requires opcode < 16 && |mask| == 4 && |payload| < Pow256(8)
    ensures var w := Wire(true, 0, opcode, Some(mask), ShortestForm(|payload|), payload);
            ValidWire(w) && SentFrame(opcode, payload, mask) == Some(Encode(w))
  {
    assert Pow256(2) == 65536;
    var w := Wire(true, 0, opcode, Some(mask), ShortestForm(|payload|), payload);
    assert SentFrame(opcode, payload, mask).value == Encode(w);
  }

  // A sent frame parses back, and no valid form of its length is shorter.
  lemma SentParsesBack(opcode: nat, payload: Bytes, mask: Bytes, rest: Bytes)
    requires opcode < 16 && |mask| == 4 && |payload| < Pow256(8)
    ensures SentFrame(opcode, payload, mask).Some?
    ensures var sent := SentFrame(opcode, payload, mask).value;
            && sent == Encode(Wire(true, 0, opcode, Some(mask), ShortestForm(|payload|), payload))
            && ParseFrame(sent + rest) == Some(Parsed(Frame(true, opcode, payload), |sent|))
    ensures forall w :: ValidWire(w) && w.payload == payload && w.mask.Some? ==>
              |SentFrame(opcode, payload, mask).value| <= |Encode(w)|
  {
    SentIsEncoded(opcode, payload, mask);
    ParseOfEncode(Wire(true, 0, opcode, Some(mask), ShortestForm(|payload|), payload), rest);
    assert Pow256(2) == 65536;
  }

  // A final frame under some mask, as a client must send it (section 5.3 of RFC 6455).
  ghost predicate MaskedFrame(frame: Bytes, opcode: nat, payload: Bytes) {
    exists mask: Bytes :: MaskedWith(frame, opcode, payload, mask)
  }

  ghost predicate MaskedWith(frame: Bytes, opcode: nat, payload: Bytes, mask: Bytes) {
    var w := Wire(true, 0, opcode, Some(mask), ShortestForm(|payload|), payload);
    ValidWire(w) && frame == Encode(w)
  }

  lemma SentIsMasked(opcode: nat, payload: Bytes, mask: Bytes)
    requires opcode < 16 && |mask| == 4 && |payload| < Pow256(8)
    ensures SentFrame(opcode, payload, mask).Some? && MaskedFrame(SentFrame(opcode, payload, mask).value, opcode, payload)
  {
    hide SentFrame, ValidWire, Encode;
    SentIsEncoded(opcode, payload, mask);
    assert MaskedWith(SentFrame(opcode, payload, mask).value, opcode, payload, mask);
  }

  // ---- receiving a message

  datatype End = Message(payload: Bytes, rest: Bytes) | Closed | Cut

  // How a receive ends, and the payloads it answers with a pong on the way.
  datatype Received = Received(end: End, pongs: seq<Bytes>)

  predicate IsData(opcode: nat) {
    opcode == TEXT || opcode == BINARY || opcode == CONTINUATION
  }

  // `so_far` holds the fragments already read.
  function Receive(s: Bytes, soFar: Bytes): Received
    decreases |s|
  {
    match ParseFrame(s)
    case None => Received(Cut, [])
    case Some(Parsed(frame, size)) =>
      var rest := s[size..];
      if frame.opcode == CLOSE then Received(Closed, [])
      else if frame.opcode == PING then
        var r := Receive(rest, soFar);
        r.(pongs := [frame.payload] + r.pongs)
      else if IsData(frame.opcode) then
        if frame.fin then Received(Message(soFar + frame.payload, rest), []) else Receive(rest, soFar + frame.payload)
      else Receive(rest, soFar)
  }

  // ---- what a receive means in terms of the frames sent

  function EncodeAll(ws: seq<Wire>): Bytes
    requires forall w :: w in ws ==> ValidWire(w)
  {
    if ws == [] then [] else Encode(ws[0]) + EncodeAll(ws[1..])
  }

  // A frame of a message (section 5.2 of RFC 6455): a continuation, text or binary data.
  predicate Carries(w: Wire) {
    w.opcode == 0 || w.opcode == 1 || w.opcode == 2
  }

  // The message goes on after this frame; 8 closes the connection.
  predicate GoesOn(w: Wire) {
    w.opcode != 8 && !(Carries(w) && w.fin)
  }

  function Fragments(ws: seq<Wire>): Bytes {
    if ws == [] then [] else (if Carries(ws[0]) then ws[0].payload else []) + Fragments(ws[1..])
  }

  // The payloads of the pings (9).
  function Pings(ws: seq<Wire>): seq<Bytes> {
    if ws == [] then [] else (if ws[0].opcode == 9 then [ws[0].payload] else []) + Pings(ws[1..])
  }

  // One step of a receive, by the frame at the head of the stream.
  lemma ReceiveStep(w: Wire, tail: Bytes, soFar: Bytes)
    requires ValidWire(w)
    ensures w.opcode == 8 ==> Receive(Encode(w) + tail, soFar) == Received(Closed, [])
    ensures Carries(w) && w.fin ==> Receive(Encode(w) + tail, soFar) == Received(Message(soFar + w.payload, tail), [])
    ensures GoesOn(w) ==>
              var r := Receive(tail, if Carries(w) then soFar + w.payload else soFar);
              Receive(Encode(w) + tail, soFar) == r.(pongs := (if w.opcode == 9 then [w.payload] else []) + r.pongs)
  {
    hide ParseFrame, Encode;
    var s := Encode(w) + tail;
    ParseOfEncode(w, tail);
    assert s[|Encode(w)|..] == tail;
  }

  // The stream from its first frame on, and what that frame adds.
  lemma FramesUnfold(ws: seq<Wire>, last: Wire, rest: Bytes)
    requires ws != [] && (forall w :: w in ws ==> ValidWire(w)) && ValidWire(last)
    ensures ValidWire(ws[0]) && forall w :: w in ws[1..] ==> w in ws
    ensures EncodeAll(ws) + Encode(last) + rest == Encode(ws[0]) + (EncodeAll(ws[1..]) + Encode(last) + rest)
    ensures Fragments(ws) == (if Carries(ws[0]) then ws[0].payload else []) + Fragments(ws[1..])
    ensures Pings(ws) == (if ws[0].opcode == 9 then [ws[0].payload] else []) + Pings(ws[1..])
  {
    assert ws[0] in ws;
    hide Encode, ValidWire;
  }

  lemma NoFrames(last: Wire, rest: Bytes)
    requires ValidWire(last)
    ensures EncodeAll([]) + Encode(last) + rest == Encode(last) + rest && Fragments([]) == [] && Pings([]) == []
  {
    hide Encode, ValidWire;
  }

  // Up to and with the first final data frame: the fragments joined, one pong
  // per ping in order, and the rest of the stream untouched.
  lemma {:induction false} ReceiveOfFrames(ws: seq<Wire>, last: Wire, rest: Bytes, soFar: Bytes)
    requires forall w :: w in ws ==> ValidWire(w) && GoesOn(w)
    requires ValidWire(last) && Carries(last) && last.fin
    ensures Receive(EncodeAll(ws) + Encode(last) + rest, soFar) ==
            Received(Message(soFar + Fragments(ws) + last.payload, rest), Pings(ws))
  {
    hide Receive, Encode, ValidWire, GoesOn, EncodeAll, Fragments, Pings;
    if ws == [] {
      NoFrames(last, rest);
      ReceiveStep(last, rest, soFar);
      assert soFar + [] == soFar;
    } else {
      var w, tail := ws[0], EncodeAll(ws[1..]) + Encode(last) + rest;
      FramesUnfold(ws, last, rest);
      ReceiveStep(w, tail, soFar);
      var next := if Carries(w) then soFar + w.payload else soFar;
      ReceiveOfFrames(ws[1..], last, rest, next);
      assert next + Fragments(ws[1..]) == soFar + Fragments(ws);
    }
  }

  // A close frame ends it, whatever follows.
  lemma {:induction false} ReceiveClosed(ws: seq<Wire>, close: Wire, rest: Bytes, soFar: Bytes)
    requires forall w :: w in ws ==> ValidWire(w) && GoesOn(w)
    requires ValidWire(close) && close.opcode == 8
    ensures Receive(EncodeAll(ws) + Encode(close) + rest, soFar) == Received(Closed, Pings(ws))
  {
    hide Receive, Encode, ValidWire, GoesOn, EncodeAll, Fragments, Pings;
    if ws == [] {
      NoFrames(close, rest);
      ReceiveStep(close, rest, soFar);
    } else {
      FramesUnfold(ws, close, rest);
      ReceiveStep(ws[0], EncodeAll(ws[1..]) + Encode(close) + rest, soFar);
      ReceiveClosed(ws[1..], close, rest, if Carries(ws[0]) then soFar + ws[0].payload else soFar);
    }
  }

  // ---- the client

  // Each of these writes is a pong (10) with the payload of the ping it answers.
  predicate ArePongs(written: seq<Bytes>, payloads: seq<Bytes>) {
    && |written| == |payloads|
    && forall i :: 0 <= i < |written| ==>
         ParseFrame(written[i]) == Some(Parsed(Frame(true, 10, payloads[i]), |written[i]|))
  }

  function Join(parts: seq<Bytes>): Bytes {
    if parts == [] then [] else Join(parts[..|parts| - 1]) + parts[|parts| - 1]
  }

  lemma WrittenMore(before: seq<Bytes>, sent: seq<Bytes>, frame: Bytes)
    requires |before| <= |sent| && sent[..|before|] == before
    ensures (sent + [frame])[|before|..] == sent[|before|..] + [frame] && (sent + [frame])[..|before|] == before
  {}

  lemma NothingYet()
    ensures ArePongs([], []) && Join([]) == []
  {}

  lemma PongsMore(written: seq<Bytes>, payloads: seq<Bytes>, frame: Bytes, payload: Bytes)
    requires ArePongs(written, payloads)
    requires ParseFrame(frame) == Some(Parsed(Frame(true, PONG, payload), |frame|))
    ensures ArePongs(written + [frame], payloads + [payload])
  {
    hide ParseFrame;
  }

  lemma JoinMore(parts: seq<Bytes>, part: Bytes)
    ensures Join(parts + [part]) == Join(parts) + part
  {
    assert (parts + [part])[..|parts|] == parts;
  }

  // A receive after some pongs went out.
  function Resumed(r: Received, pongs: seq<Bytes>): Received {
    r.(pongs := pongs + r.pongs)
  }

  // A receive by the frame at the head of the stream.
  lemma ReceiveParsed(s: Bytes, soFar: Bytes)
    ensures ParseFrame(s).None? ==> Receive(s, soFar) == Received(Cut, [])
    ensures ParseFrame(s).Some? ==>
              var Parsed(frame, size) := ParseFrame(s).value;
              && 2 <= size <= |s| && |frame.payload| < Pow256(8)
              && Receive(s, soFar) ==
                 if frame.opcode == CLOSE then Received(Closed, [])
                 else if frame.opcode == PING then Resumed(Receive(s[size..], soFar), [frame.payload])
                 else if !IsData(frame.opcode) then Receive(s[size..], soFar)
                 else if frame.fin then Received(Message(soFar + frame.payload, s[size..]), [])
                 else Receive(s[size..], soFar + frame.payload)
  {
    if ParseFrame(s).Some? {
      LengthBound(s);
    }
    hide ParseFrame;
  }

  lemma FrameParts(s: Bytes, head: Bytes, extended: Bytes, key: Bytes, raw: Bytes, rest: Bytes)
    requires s == head + extended + (key + (raw + rest))
    ensures s == head + extended + key + raw + rest
    ensures s[|head| + |extended| + |key| + |raw|..] == rest
  {}

  class MiniWebSocket {
    const sock: Socket
    var buf: Bytes
    var written: seq<Bytes>  // each sendall

    constructor (sock: Socket)
      ensures this.sock == sock && buf == [] && written == []
    {
      this.sock, buf, written := sock, [], [];
    }

    // All that is still to be read.
    function Stream(): Bytes
      reads this, sock
    {
      buf + sock.incoming
    }

    method Read(n: nat) returns (ok: bool, out: Bytes)
      modifies `buf, sock
      ensures ok <==> n <= |old(Stream())|
      ensures ok ==> out == old(Stream())[..n] && Stream() == old(Stream())[n..] && old(Stream()) == out + Stream()
    {
      while |buf| < n
        invariant Stream() == old(Stream())
        decreases |sock.incoming|
      {
        var chunk := sock.Recv(65536);
        if chunk == [] {
          return false, [];
        }
        buf := buf + chunk;
      }
      ok, out := true, buf[..n];
      assert old(Stream())[..n] == buf[..n];
      buf := buf[n..];
      assert old(Stream())[n..] == buf + sock.incoming;
    }

    method SendFrame(opcode: nat, payload: Bytes) returns (ok: bool)
      requires opcode < 16
      modifies `written
      ensures ok <==> |payload| < Pow256(8)
      ensures ok ==> exists frame :: written == old(written) + [frame] && MaskedFrame(frame, opcode, payload) &&
                       ParseFrame(frame) == Some(Parsed(Frame(true, opcode, payload), |frame|))
      ensures !ok ==> written == old(written)
    {
      hide ParseFrame, MaskedFrame, Encode;
      var mask: Bytes := *;
      if |mask| != 4 {
        mask := [0, 0, 0, 0];
      }
      var frame := SentFrame(opcode, payload, mask);
      assert Pow256(4) > 65536 && Pow256(8) > Pow256(4);
      if frame.None? {
        return false;
      }
      SentParsesBack(opcode, payload, mask, []);
      SentIsMasked(opcode, payload, mask);
      assert frame.value + [] == frame.value;
      written := written + [frame.value];
      ok := true;
    }

    // The first two octets and the length after them.
    method ReadLength() returns (ok: bool, head: Bytes, extended: Bytes, n: nat)
      modifies `buf, sock
      ensures !ok ==> ParseFrame(old(Stream())) == None
      ensures ok ==> |head| == 2 && |extended| == LengthSize(head[1] % 128)
      ensures ok ==> n == if extended == [] then head[1] % 128 else Uint(extended)
      ensures ok ==> old(Stream()) == head + extended + Stream()
    {
      extended, n := [], 0;
      ok, head := Read(2);
      if !ok {
        return;
      }
      n := head[1] % 128;
      if n == 126 || n == 127 {
        ok, extended := Read(if n == 126 then 2 else 8);
        if !ok {
          ShortStream(old(Stream()));
          return;
        }
        n := Uint(extended);
      }
    }

    // One frame off the stream.
    method ReadFrame() returns (frame: Option<Frame>)
      modifies `buf, sock
      ensures match ParseFrame(old(Stream()))
              case None => frame == None
              case Some(p) => frame == Some(p.frame) && Stream() == old(Stream())[p.size..]
    {
      hide Uint, Masked, ParseFrame, LengthSize;
      var ok, head, extended, n := ReadLength();
      if !ok {
        return None;
      }
      ghost var after := Stream();
      var key: Bytes := [];
      if head[1] >= 128 {
        ok, key := Read(4);
        if !ok {
          CutInside(head, extended, after);
          return None;
        }
      }
      assert key == [] || |key| == 4;
      ghost var unread := Stream();
      assert after == key + unread;
      var raw;
      ok, raw := Read(n);
      if !ok {
        CutInside(head, extended, after);
        return None;
      }
      ParseOfParts(head, extended, key, raw, Stream());
      assert unread == raw + Stream() && after == key + (raw + Stream());
      FrameParts(old(Stream()), head, extended, key, raw, Stream());
      frame := Some(Frame(head[0] >= 128, head[0] % 16, if key == [] then raw else Masked(raw, key)));
    }

    // The next message, before it is parsed as JSON.
    method Recv() returns (end: End)
      modifies this, sock
      ensures end == Receive(old(Stream()), []).end
      ensures end.Message? ==> Stream() == end.rest
      ensures |old(written)| <= |written| && written[..|old(written)|] == old(written)
      ensures ArePongs(written[|old(written)|..], Receive(old(Stream()), []).pongs)
    {
      hide ParseFrame, Receive, ArePongs, Join, Pow256;
      var parts: seq<Bytes> := [];
      ghost var pongs: seq<Bytes> := [];
      NothingYet();
      assert written[|written|..] == [] && forall r: Received :: Resumed(r, []) == r;
      while true
        invariant Receive(old(Stream()), []) == Resumed(Receive(Stream(), Join(parts)), pongs)
        invariant |old(written)| <= |written| && written[..|old(written)|] == old(written)
        invariant ArePongs(written[|old(written)|..], pongs)
        decreases |Stream()|
      {
        ghost var before := Stream();
        ReceiveParsed(before, Join(parts));
        assert pongs + [] == pongs;
        var frame := ReadFrame();
        if frame.None? {
          return Cut;
        }
        if frame.value.opcode == CLOSE {
          return Closed;
        }
        if frame.value.opcode == PING {
          ghost var sent := written;
          var ok := SendFrame(PONG, frame.value.payload);
          WrittenMore(old(written), sent, written[|sent|]);
          PongsMore(sent[|old(written)|..], pongs, written[|sent|], frame.value.payload);
          pongs := pongs + [frame.value.payload];
          continue;
        }
        if IsData(frame.value.opcode) {
          JoinMore(parts, frame.value.payload);
          parts := parts + [frame.value.payload];
          if frame.value.fin {
            return Message(Join(parts), Stream());
          }
        }
      }
    }
  }
}
