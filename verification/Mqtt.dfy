// The MQTT packet codec of the evidence collector's broker probe (section 2.2.3
// of MQTT 3.1.1: the remaining length in groups of seven bits).

module Mqtt {
  import opened OctetStrings
  import opened Sockets

  // ---- the length field

  // Seven bits an octet, least significant first; all but the last have the top bit.
  function LengthField(n: nat): Bytes {
    if n < 128 then [n] else [(n % 128 + 128)] + LengthField(n / 128)
  }

  datatype Decoded = Decoded(length: nat, size: nat) | Unfinished

  // The length at the start of `s`, however many octets it takes.
  function DecodeLength(s: Bytes): (r: Decoded)
    ensures r.Decoded? ==> 0 < r.size <= |s|
  {
    if s == [] then Unfinished
    else if s[0] < 128 then Decoded(s[0], 1)
    else
      match DecodeLength(s[1..])
      case Unfinished => Unfinished
      case Decoded(n, size) => Decoded(s[0] % 128 + 128 * n, size + 1)
  }

  lemma {:induction false} LengthRoundTrip(n: nat, rest: Bytes)
    ensures DecodeLength(LengthField(n) + rest) == Decoded(n, |LengthField(n)|)
  {
    var s := LengthField(n) + rest;
    if n >= 128 {
      assert s[1..] == LengthField(n / 128) + rest;
      LengthRoundTrip(n / 128, rest);
    }
  }

  function Pow128(k: nat): nat {
    if k == 0 then 1 else 128 * Pow128(k - 1)
  }

  lemma {:induction false} FieldFits(n: nat, k: nat)
    requires k > 0
    ensures |LengthField(n)| <= k <==> n < Pow128(k)
  {
    if n < 128 {
      PowGrows(k);
    } else if k > 1 {
      FieldFits(n / 128, k - 1);
    }
  }

  lemma {:induction false} PowGrows(k: nat)
    requires k > 0
    ensures Pow128(k) >= 128
  {
    if k > 1 {
      PowGrows(k - 1);
    }
  }

  // The field keeps to the standard's four octets just up to its largest length.
  lemma FourOctets(n: nat)
    ensures |LengthField(n)| <= 4 <==> n <= 268435455
  {
    FieldFits(n, 4);
    assert Pow128(2) == 16384;
    assert Pow128(4) == 268435456;
  }

  // The group of seven bits with `i` groups below it.
  function Group(n: nat, i: nat): nat {
    if i == 0 then n % 128 else Group(n / 128, i - 1)
  }

  // The field is the standard's: the groups from the least significant on, the top
  // bit set on all but the last, and no more of them than the length needs.
  lemma {:induction false} FieldIsGroups(n: nat)
    ensures var field := LengthField(n);
            && field != [] && (forall i :: 0 <= i < |field| ==> field[i] % 128 == Group(n, i))
            && (forall i :: 0 <= i < |field| ==> (field[i] >= 128 <==> i < |field| - 1))
            && (|field| > 1 ==> field[|field| - 1] != 0)
  {
    if n >= 128 {
      FieldIsGroups(n / 128);
      var field, rest := LengthField(n), LengthField(n / 128);
      assert field == [(n % 128 + 128)] + rest;
      assert forall i :: 1 <= i < |field| ==> field[i] == rest[i - 1];
      assert (n % 128 + 128) % 128 == n % 128;
    }
  }

  // ---- packets

  function Packet(kind: byte, body: Bytes): Bytes {
    [kind] + LengthField(|body|) + body
  }

  // `_mqtt_packet`: the length octets one by one.
  method MakePacket(kind: byte, body: Bytes) returns (packet: Bytes)
    ensures packet == [kind] + LengthField(|body|) + body
  {
    var length: nat, encoded: Bytes := |body|, [];
    while true
      invariant encoded + LengthField(length) == LengthField(|body|)
      decreases length
    {
      var octet := length % 128;
      ghost var before := length;
      length := length / 128;
      ghost var written := encoded;
      encoded := encoded + [(octet + if length > 0 then 128 else 0)];
      if length == 0 {
        assert encoded == written + LengthField(before);
        return [kind] + encoded + body;
      }
      assert written + LengthField(before) == encoded + LengthField(length);
    }
  }

  // Closed before a packet, closed within one (an IndexError inside the length), or a packet.
  datatype ReadResult = Closed | NoLength | Got(kind: byte, body: Bytes)

  function ReadPacket(s: Bytes): (ReadResult, Bytes) {
    if s == [] then (Closed, [])
    else
      match DecodeLength(s[1..])
      case Unfinished => (NoLength, [])
      case Decoded(n, size) =>
        if |s| < 1 + size + n then (Closed, []) else (Got(s[0], s[1 + size..1 + size + n]), s[1 + size + n..])
  }

  // What was packed is read back, and nothing after it.
  lemma PacketRoundTrip(kind: byte, body: Bytes, rest: Bytes)
    ensures ReadPacket(Packet(kind, body) + rest) == (Got(kind, body), rest)
  {
    var s := Packet(kind, body) + rest;
    var field := LengthField(|body|);
    assert s[1..] == field + (body + rest);
    LengthRoundTrip(|body|, body + rest);
    assert s[1 + |field|..1 + |field| + |body|] == body;
    assert s[1 + |field| + |body|..] == rest;
  }

  // A packet that is cut short is never taken for one.
  lemma CutPacket(kind: byte, body: Bytes, n: nat)
    requires n < |Packet(kind, body)|
    ensures !ReadPacket(Packet(kind, body)[..n]).0.Got?
  {
    var s, field := Packet(kind, body)[..n], LengthField(|body|);
    if n > 0 {
      if n < 1 + |field| {
        assert s[1..] == field[..n - 1];
        CutField(|body|, n - 1);
      } else {
        var part := body[..n - 1 - |field|];
        assert s[1..] == field + part;
        LengthRoundTrip(|body|, part);
      }
    }
  }

  lemma {:induction false} CutField(length: nat, n: nat)
    requires n < |LengthField(length)|
    ensures DecodeLength(LengthField(length)[..n]) == Unfinished
  {
    if n > 0 {
      var field := LengthField(length);
      assert field[..n][1..] == LengthField(length / 128)[..n - 1];
      CutField(length / 128, n - 1);
    }
  }

  // `length` octets, if so many come.
  method ReadBody(sock: Socket, length: nat) returns (ok: bool, body: Bytes)
    modifies sock
    ensures ok <==> length <= |old(sock.incoming)|
    ensures ok ==> body == old(sock.incoming)[..length] && sock.incoming == old(sock.incoming)[length..]
    ensures !ok ==> sock.incoming == []
  {
    body := [];
    while |body| < length
      invariant |body| <= length && body + sock.incoming == old(sock.incoming)
      decreases |sock.incoming|
    {
      var chunk := sock.Recv(length - |body|);
      if chunk == [] {
        return false, body;
      }
      body := body + chunk;
    }
    ok := true;
  }

  // `_mqtt_read`, however the bytes arrive.
  method Read(sock: Socket) returns (r: ReadResult)
    modifies sock
    ensures (r, sock.incoming) == ReadPacket(old(sock.incoming))
  {
    hide DecodeLength, Continues;
    ghost var s := sock.incoming;
    var head := sock.Recv(1);
    if head == [] {
      return Closed;
    }
    var length: nat, scale: nat, more := 0, 1, true;
    ghost var done: nat := 0;
    ghost var field := sock.incoming;
    assert s[0] == head[0] && s[1..] == field;
    ContinuesStart(field);
    while more
      invariant done <= |field| && sock.incoming == field[done..]
      invariant more ==> Continues(field, done, length, scale)
      invariant !more ==> DecodeLength(field) == Decoded(length, done)
      decreases more, |sock.incoming|
    {
      var next := sock.Recv(1);
      if next == [] {
        ContinuesNot(field, length, scale);
        return NoLength;
      }
      ContinueWith(field, done, length, scale);
      assert next[0] == field[done];
      length := length + scale * (next[0] % 128);
      scale := scale * 128;
      done := done + 1;
      more := next[0] >= 128;
    }
    var ok, body := ReadBody(sock, length);
    assert s[1 + done..] == field[done..];
    if !ok {
      return Closed;
    }
    assert s[1 + done..1 + done + length] == body && s[1 + done + length..] == sock.incoming;
    return Got(head[0], body);
  }

  // The length read so far, with `done` octets of it, belongs to the length at the start of `s`.
  ghost predicate Continues(s: Bytes, done: nat, length: nat, scale: nat)
    requires done <= |s|
  {
    DecodeLength(s) ==
    match DecodeLength(s[done..])
    case Unfinished => Unfinished
    case Decoded(n, size) => Decoded(length + scale * n, done + size)
  }

  lemma ContinuesStart(s: Bytes)
    ensures Continues(s, 0, 0, 1)
  {
    assert s[0..] == s;
  }

  lemma ContinuesNot(s: Bytes, length: nat, scale: nat)
    requires Continues(s, |s|, length, scale)
    ensures DecodeLength(s) == Unfinished
  {
    assert s[|s|..] == [];
  }

  lemma DecodeFirst(t: Bytes)
    requires t != []
    ensures DecodeLength(t) ==
            if t[0] < 128 then Decoded(t[0], 1)
            else match DecodeLength(t[1..]) case Unfinished => Unfinished
                                            case Decoded(n, size) => Decoded(t[0] % 128 + 128 * n, size + 1)
  {}

  lemma ContinueWith(s: Bytes, done: nat, length: nat, scale: nat)
    requires done < |s| && Continues(s, done, length, scale)
    ensures var now := length + scale * (s[done] % 128);
            if s[done] < 128 then DecodeLength(s) == Decoded(now, done + 1) else Continues(s, done + 1, now, scale * 128)
  {
    hide DecodeLength;
    var t, low := s[done..], s[done] % 128;
    DecodeFirst(t);
    assert t[1..] == s[done + 1..] && t[0] == s[done];
    if s[done] >= 128 && DecodeLength(t[1..]).Decoded? {
      Regroup(length, scale, low, DecodeLength(t[1..]).length);
    }
  }

  lemma Regroup(length: nat, scale: nat, low: nat, n: nat)
    ensures length + scale * (low + 128 * n) == length + scale * low + scale * 128 * n
  {}
}
