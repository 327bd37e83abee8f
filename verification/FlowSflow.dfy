// sFlow v5: sampled packet headers, scaled by the sampling rate. The decoding as
// functions on byte strings, and the encoding they invert.

module FlowSflow {
  import opened FlowEncoding
  import opened FlowWire
  import opened OctetStrings
  import opened Options

  const ETHERNET := 1
  const IPV4 := 11
  const ETHERTYPE_IPV4 := 0x0800

  // ---- a sampled header

  // `_account_ip_header`.
  function IpCalls(h: Bytes, octets: nat): seq<Call> {
    if |h| < 20 || (h[0] as int) / 16 != 4 then []
    else
      var proto, at := h[9] as int, (h[0] as int) % 16 * 4;
      var ported := (proto == 6 || proto == 17) && |h| >= at + 4;
      [Call(U32(h, 12), U32(h, 16), octets, None, proto,
            if ported then U16(h, at) else 0, if ported then U16(h, at + 2) else 0)]
  }

  predicate IsTag(etype: nat) {
    etype == 0x8100 || etype == 0x88A8
  }

  // Where the ethertype is, after any VLAN tags.
  function SkipTags(h: Bytes, off: nat): (r: nat)
    requires off + 2 <= |h|
    ensures off <= r && r + 2 <= |h|
    decreases |h| - off
  {
    if IsTag(U16(h, off)) && off + 6 <= |h| then SkipTags(h, off + 4) else off
  }

  // `_account_ether_header`.
  function EtherCalls(h: Bytes, octets: nat): seq<Call> {
    if |h| < 14 then []
    else
      var off := SkipTags(h, 12);
      if U16(h, off) != ETHERTYPE_IPV4 then [] else IpCalls(h[off + 2..], octets)
  }

  function HeaderCalls(proto: nat, h: Bytes, octets: nat): seq<Call> {
    if proto == ETHERNET then EtherCalls(h, octets) else if proto == IPV4 then IpCalls(h, octets) else []
  }

  function Scaled(frameLength: nat, rate: nat): nat {
    frameLength * if rate > 1 then rate else 1
  }

  // ---- samples

  // The calls of `account`, the headers seen, and whether a struct.error ends it.
  datatype Sampled = Sampled(calls: seq<Call>, headers: nat, raised: bool)

  const NOTHING := Sampled([], 0, false)

  function Join(a: Sampled, b: Sampled): Sampled {
    Sampled(a.calls + b.calls, a.headers + b.headers, b.raised)
  }

  // The records of one sample; only raw packet headers count.
  function ReadRecords(data: Bytes, off: nat, count: nat, rate: nat): Sampled
    decreases count
  {
    if count == 0 then NOTHING
    else if off + 8 > |data| then NOTHING.(raised := true)
    else
      var r, next := off + 8, off + 8 + U32(data, off + 4);
      if U32(data, off) != 1 then ReadRecords(data, next, count - 1, rate)
      else if r + 16 > |data| then NOTHING.(raised := true)
      else
        var header := Slice(data, r + 16, U32(data, r + 12));
        Join(Sampled(HeaderCalls(U32(data, r), header, Scaled(U32(data, r + 4), rate)), 1, false),
             ReadRecords(data, next, count - 1, rate))
  }

  // Enterprise 0, format 1 (flow sample) or 3 (expanded flow sample).
  predicate IsFlowSample(fmt: nat) {
    fmt / 4096 == 0 && (fmt % 4096 == 1 || fmt % 4096 == 3)
  }

  // Offsets of the rate and of the record count inside a flow sample.
  function RateAt(fmt: nat): nat {
    if fmt % 4096 == 1 then 8 else 12
  }

  function CountAt(fmt: nat): nat {
    if fmt % 4096 == 1 then 28 else 40
  }

  function ReadSample(data: Bytes, fmt: nat, body: nat): Sampled {
    if !IsFlowSample(fmt) then NOTHING
    else if body + CountAt(fmt) + 4 > |data| then NOTHING.(raised := true)
    else ReadRecords(data, body + CountAt(fmt) + 4, U32(data, body + CountAt(fmt)), U32(data, body + RateAt(fmt)))
  }

  function ReadSamples(data: Bytes, off: nat, count: nat): Sampled
    decreases count
  {
    if count == 0 then NOTHING
    else if off + 8 > |data| then NOTHING.(raised := true)
    else
      var one := ReadSample(data, U32(data, off), off + 8);
      if one.raised then one else Join(one, ReadSamples(data, off + 8 + U32(data, off + 4), count - 1))
  }

  // Offset of the sample count: the agent's address, then three more words.
  function SamplesAt(addressType: nat): nat {
    8 + (if addressType == 1 then 4 else 16) + 12
  }

  // `handle_sflow`.
  function ReadDatagram(data: Bytes): Sampled {
    if |data| < 8 then NOTHING.(raised := true)
    else
      var at := SamplesAt(U32(data, 4));
      if at + 4 > |data| then NOTHING.(raised := true) else ReadSamples(data, at + 4, U32(data, at))
  }

  // ---- the sender's side: headers

  // An IPv4 packet; `middle` is what lies between the first octet and the protocol.
  datatype Packet = Packet(words: nat, middle: Bytes, proto: byte, checksum: Bytes, src: nat, dst: nat,
                           options: Bytes, payload: Bytes)

  predicate ValidPacket(p: Packet) {
    && 5 <= p.words < 16 && |p.middle| == 8 && |p.checksum| == 2 && |p.options| == 4 * p.words - 20
    && p.src < 0x1_0000_0000 && p.dst < 0x1_0000_0000
  }

  function EncodePacket(p: Packet): Bytes
    requires ValidPacket(p)
  {
    [64 + p.words] + p.middle + [p.proto] + p.checksum + EncodeU32(p.src) + EncodeU32(p.dst) + p.options + p.payload
  }

  // The record a sampled packet stands for; ports only of TCP and UDP.
  function PacketCall(p: Packet, octets: nat): Call {
    var ported := (p.proto as int == 6 || p.proto as int == 17) && |p.payload| >= 4;
    Call(p.src, p.dst, octets, None, p.proto as int,
         if ported then U16(p.payload, 0) else 0, if ported then U16(p.payload, 2) else 0)
  }

  lemma PacketRoundTrip(p: Packet, octets: nat)
    requires ValidPacket(p)
    ensures IpCalls(EncodePacket(p), octets) == [PacketCall(p, octets)]
  {
    hide U32, EncodeU32;
    var h := EncodePacket(p);
    assert h[0] as int == 64 + p.words && h[9] == p.proto;
    assert h[12..16] == EncodeU32(p.src) && h[16..20] == EncodeU32(p.dst);
    U32At(h, 12, p.src);
    U32At(h, 16, p.dst);
    var at := 4 * p.words;
    assert h[at..] == p.payload;
    if |p.payload| >= 4 {
      assert h[at] == p.payload[0] && h[at + 1] == p.payload[1] && h[at + 2] == p.payload[2] && h[at + 3] == p.payload[3];
    }
  }

  datatype Tag = Tag(tpid: nat, tci: nat)

  predicate ValidTags(tags: seq<Tag>) {
    forall t :: t in tags ==> (t.tpid == 0x8100 || t.tpid == 0x88A8) && t.tci < 65536
  }

  function EncodeTags(tags: seq<Tag>): Bytes
    requires ValidTags(tags)
  {
    if tags == [] then [] else EncodeU16(tags[0].tpid) + EncodeU16(tags[0].tci) + EncodeTags(tags[1..])
  }

  lemma {:induction false} TagsSkipped(h: Bytes, off: nat, tags: seq<Tag>, etype: nat)
    requires ValidTags(tags) && etype < 65536 && !IsTag(etype)
    requires At(h, off, EncodeTags(tags) + EncodeU16(etype))
    ensures off + 2 <= |h| && SkipTags(h, off) == off + |EncodeTags(tags)| && U16(h, SkipTags(h, off)) == etype
    decreases tags
  {
    if tags == [] {
      assert EncodeTags(tags) + EncodeU16(etype) == EncodeU16(etype);
      U16At(h, off, etype);
    } else {
      var rest := EncodeTags(tags[1..]) + EncodeU16(etype);
      assert EncodeTags(tags) + EncodeU16(etype) == EncodeU16(tags[0].tpid) + (EncodeU16(tags[0].tci) + rest);
      AtSplit(h, off, EncodeU16(tags[0].tpid), EncodeU16(tags[0].tci) + rest);
      AtSplit(h, off + 2, EncodeU16(tags[0].tci), rest);
      U16At(h, off, tags[0].tpid);
      TagsSkipped(h, off + 4, tags[1..], etype);
    }
  }

  function EncodeFrame(addresses: Bytes, tags: seq<Tag>, etype: nat, payload: Bytes): Bytes
    requires ValidTags(tags) && etype < 65536
  {
    addresses + (EncodeTags(tags) + EncodeU16(etype)) + payload
  }

  // Any number of VLAN tags is looked through; anything but IPv4 is not accounted.
  lemma FrameRoundTrip(addresses: Bytes, tags: seq<Tag>, etype: nat, payload: Bytes, octets: nat)
    requires |addresses| == 12 && ValidTags(tags) && etype < 65536 && etype != 0x8100 && etype != 0x88A8
    ensures EtherCalls(EncodeFrame(addresses, tags, etype, payload), octets) ==
            if etype == 0x0800 then IpCalls(payload, octets) else []
  {
    hide U16, IpCalls;
    var h := EncodeFrame(addresses, tags, etype, payload);
    assert At(h, 12, EncodeTags(tags) + EncodeU16(etype));
    TagsSkipped(h, 12, tags, etype);
    assert h[12 + |EncodeTags(tags)| + 2..] == payload;
  }

  // ---- the sender's side: sampled headers

  // What a raw packet header record may start with: an Ethernet frame around an
  // IPv4 packet or another payload, or an IPv4 packet, by the header's protocol.
  datatype Header =
    | Ethernet(addresses: Bytes, tags: seq<Tag>, packet: Packet)
    | OtherFrame(addresses: Bytes, tags: seq<Tag>, etype: nat, payload: Bytes)
    | Ip(packet: Packet)
    | Unknown(proto: nat, bytes: Bytes)

  predicate ValidHeader(h: Header) {
    match h
    case Ethernet(addresses, tags, packet) => |addresses| == 12 && ValidTags(tags) && ValidPacket(packet)
    case OtherFrame(addresses, tags, etype, payload) =>
      && |addresses| == 12 && ValidTags(tags) && etype < 65536
      && etype != 0x0800 && etype != 0x8100 && etype != 0x88A8
    case Ip(packet) => ValidPacket(packet)
    case Unknown(proto, _) => proto != 1 && proto != 11
  }

  function HeaderProtocol(h: Header): nat {
    match h
    case Ip(_) => 11
    case Unknown(proto, _) => proto
    case _ => 1
  }

  function EncodeHeader(h: Header): Bytes
    requires ValidHeader(h)
  {
    match h
    case Ethernet(addresses, tags, packet) => EncodeFrame(addresses, tags, 0x0800, EncodePacket(packet))
    case OtherFrame(addresses, tags, etype, payload) => EncodeFrame(addresses, tags, etype, payload)
    case Ip(packet) => EncodePacket(packet)
    case Unknown(_, bytes) => bytes
  }

  // Of these only the IPv4 packets are accounted.
  lemma HeaderRoundTrip(h: Header, octets: nat)
    requires ValidHeader(h)
    ensures HeaderCalls(HeaderProtocol(h), EncodeHeader(h), octets) ==
            if h.Ethernet? || h.Ip? then [PacketCall(h.packet, octets)] else []
  {
    hide EtherCalls, IpCalls, EncodePacket, EncodeFrame, ValidPacket, ValidTags;
    match h
    case Ethernet(addresses, tags, packet) =>
      FrameRoundTrip(addresses, tags, 0x0800, EncodePacket(packet), octets);
      PacketRoundTrip(packet, octets);
    case OtherFrame(addresses, tags, etype, payload) =>
      FrameRoundTrip(addresses, tags, etype, payload, octets);
    case Ip(packet) =>
      PacketRoundTrip(packet, octets);
    case Unknown(_, _) =>
  }

  // ---- the sender's side: samples

  // A raw packet header, with the padding of its opaque bytes, or another record.
  datatype FlowRecord =
    | RawHeader(proto: nat, frameLength: nat, stripped: nat, header: Bytes, padding: Bytes)
    | OtherRecord(fmt: nat, body: Bytes)

  const WORD := 0x1_0000_0000

  predicate ValidRecord(r: FlowRecord) {
    match r
    case RawHeader(proto, frameLength, stripped, header, padding) =>
      proto < WORD && frameLength < WORD && stripped < WORD && 16 + |header| + |padding| < WORD
    case OtherRecord(fmt, body) => fmt < WORD && fmt != 1 && |body| < WORD
  }

  function EncodeFlowRecord(r: FlowRecord): Bytes
    requires ValidRecord(r)
  {
    match r
    case RawHeader(proto, frameLength, stripped, header, padding) =>
      EncodeU32(1) + (EncodeU32(16 + |header| + |padding|)
      + (EncodeU32(proto) + (EncodeU32(frameLength) + (EncodeU32(stripped) + (EncodeU32(|header|) + (header + padding))))))
    case OtherRecord(fmt, body) => EncodeU32(fmt) + (EncodeU32(|body|) + body)
  }

  function EncodeFlowRecords(rs: seq<FlowRecord>): Bytes
    requires forall r :: r in rs ==> ValidRecord(r)
  {
    if rs == [] then [] else EncodeFlowRecord(rs[0]) + EncodeFlowRecords(rs[1..])
  }

  // The octets a sampled frame stands for; a rate of 0 counts like 1.
  function Estimate(frameLength: nat, rate: nat): nat {
    if rate == 0 then frameLength else frameLength * rate
  }

  // What the records of a sample stand for.
  function RecordsMean(rs: seq<FlowRecord>, rate: nat): Sampled {
    if rs == [] then NOTHING
    else if rs[0].OtherRecord? then RecordsMean(rs[1..], rate)
    else
      Join(Sampled(HeaderCalls(rs[0].proto, rs[0].header, Estimate(rs[0].frameLength, rate)), 1, false),
           RecordsMean(rs[1..], rate))
  }

  lemma SliceAt(data: Bytes, off: nat, chunk: Bytes)
    requires At(data, off, chunk)
    ensures Slice(data, off, |chunk|) == chunk && off + |chunk| <= |data|
  {}

  lemma ScaledIs(r: FlowRecord, rate: nat)
    ensures r.RawHeader? ==> Scaled(r.frameLength, rate) == Estimate(r.frameLength, rate)
  {}

  // One record of either kind at `off`.
  lemma RecordAt(data: Bytes, off: nat, r: FlowRecord, count: nat, rate: nat)
    requires ValidRecord(r) && At(data, off, EncodeFlowRecord(r)) && count > 0
    ensures var rest := ReadRecords(data, off + |EncodeFlowRecord(r)|, count - 1, rate);
            ReadRecords(data, off, count, rate) ==
            if r.OtherRecord? then rest
            else Join(Sampled(HeaderCalls(r.proto, r.header, Estimate(r.frameLength, rate)), 1, false), rest)
  {
    ScaledIs(r, rate);
    hide At, U32, EncodeU32, Slice, HeaderCalls, Scaled, Estimate;
    match r
    case OtherRecord(fmt, body) =>
      AtSplit(data, off, EncodeU32(fmt), EncodeU32(|body|) + body);
      AtSplit(data, off + 4, EncodeU32(|body|), body);
      U32At(data, off, fmt);
      U32At(data, off + 4, |body|);
    case RawHeader(proto, frameLength, stripped, header, padding) =>
      var t3 := EncodeU32(|header|) + (header + padding);
      var t2 := EncodeU32(stripped) + t3;
      var t1 := EncodeU32(frameLength) + t2;
      var t0 := EncodeU32(proto) + t1;
      var length := 16 + |header| + |padding|;
      AtSplit(data, off, EncodeU32(1), EncodeU32(length) + t0);
      AtSplit(data, off + 4, EncodeU32(length), t0);
      AtSplit(data, off + 8, EncodeU32(proto), t1);
      AtSplit(data, off + 12, EncodeU32(frameLength), t2);
      AtSplit(data, off + 16, EncodeU32(stripped), t3);
      AtSplit(data, off + 20, EncodeU32(|header|), header + padding);
      AtSplit(data, off + 24, header, padding);
      U32At(data, off, 1);
      U32At(data, off + 4, length);
      U32At(data, off + 8, proto);
      U32At(data, off + 12, frameLength);
      U32At(data, off + 20, |header|);
      SliceAt(data, off + 24, header);
  }

  lemma {:induction false} RecordsRoundTrip(data: Bytes, off: nat, rs: seq<FlowRecord>, rate: nat)
    requires (forall r :: r in rs ==> ValidRecord(r)) && At(data, off, EncodeFlowRecords(rs))
    ensures ReadRecords(data, off, |rs|, rate) == RecordsMean(rs, rate)
    decreases rs
  {
    hide At, HeaderCalls, EncodeFlowRecord, Estimate;
    if rs != [] {
      AtSplit(data, off, EncodeFlowRecord(rs[0]), EncodeFlowRecords(rs[1..]));
      RecordAt(data, off, rs[0], |rs|, rate);
      RecordsRoundTrip(data, off + |EncodeFlowRecord(rs[0])|, rs[1..], rate);
    }
  }

  // A flow sample (1) or an expanded one (3), or one of another format. `lead` is
  // the sequence number and the source; `middle` the pool, the drops and the interfaces.
  datatype Sample =
    | FlowSample(fmt: nat, lead: Bytes, rate: nat, middle: Bytes, records: seq<FlowRecord>, tail: Bytes)
    | OtherSample(fmt: nat, body: Bytes)

  function SampleBody(s: Sample): Bytes
    requires s.FlowSample? ==> s.rate < WORD && |s.records| < WORD && forall r :: r in s.records ==> ValidRecord(r)
  {
    match s
    case FlowSample(_, lead, rate, middle, records, tail) =>
      lead + (EncodeU32(rate) + (middle + (EncodeU32(|records|) + (EncodeFlowRecords(records) + tail))))
    case OtherSample(_, body) => body
  }

  predicate ValidSample(s: Sample) {
    && s.fmt < WORD
    && (match s
        case FlowSample(fmt, lead, rate, middle, records, tail) =>
          && ((fmt == 1 && |lead| == 8 && |middle| == 16) || (fmt == 3 && |lead| == 12 && |middle| == 24))
          && rate < WORD && |records| < WORD && forall r :: r in records ==> ValidRecord(r)
        case OtherSample(fmt, body) => fmt != 1 && fmt != 3)
    && |SampleBody(s)| < WORD
  }

  function EncodeSample(s: Sample): Bytes
    requires ValidSample(s)
  {
    EncodeU32(s.fmt) + (EncodeU32(|SampleBody(s)|) + SampleBody(s))
  }

  function EncodeSamples(ss: seq<Sample>): Bytes
    requires forall s :: s in ss ==> ValidSample(s)
  {
    if ss == [] then [] else EncodeSample(ss[0]) + EncodeSamples(ss[1..])
  }

  function SampleMeans(s: Sample): Sampled {
    if s.FlowSample? then RecordsMean(s.records, s.rate) else NOTHING
  }

  function SamplesMean(ss: seq<Sample>): Sampled {
    if ss == [] then NOTHING else Join(SampleMeans(ss[0]), SamplesMean(ss[1..]))
  }

  lemma {:induction false} RecordsMeanFine(rs: seq<FlowRecord>, rate: nat)
    ensures !RecordsMean(rs, rate).raised
  {
    if rs != [] {
      RecordsMeanFine(rs[1..], rate);
    }
  }

  lemma {:induction false} SamplesMeanFine(ss: seq<Sample>)
    ensures !SamplesMean(ss).raised
  {
    if ss != [] {
      SamplesMeanFine(ss[1..]);
    }
  }

  lemma SampleBodyAt(data: Bytes, at: nat, s: Sample)
    requires ValidSample(s) && At(data, at, SampleBody(s))
    ensures ReadSample(data, s.fmt, at) == SampleMeans(s)
  {
    hide At, U32, EncodeU32, ReadRecords, EncodeFlowRecords, RecordsMean, ValidRecord;
    match s
    case OtherSample(_, _) =>
    case FlowSample(fmt, lead, rate, middle, records, tail) =>
      var t2 := EncodeU32(|records|) + (EncodeFlowRecords(records) + tail);
      var t1 := middle + t2;
      AtSplit(data, at, lead, EncodeU32(rate) + t1);
      AtSplit(data, at + |lead|, EncodeU32(rate), t1);
      AtSplit(data, at + |lead| + 4, middle, t2);
      AtSplit(data, at + CountAt(fmt), EncodeU32(|records|), EncodeFlowRecords(records) + tail);
      AtSplit(data, at + CountAt(fmt) + 4, EncodeFlowRecords(records), tail);
      U32At(data, at + RateAt(fmt), rate);
      U32At(data, at + CountAt(fmt), |records|);
      RecordsRoundTrip(data, at + CountAt(fmt) + 4, records, rate);
  }

  lemma {:induction false} SamplesRoundTrip(data: Bytes, off: nat, ss: seq<Sample>)
    requires (forall s :: s in ss ==> ValidSample(s)) && At(data, off, EncodeSamples(ss))
    ensures ReadSamples(data, off, |ss|) == SamplesMean(ss)
    decreases ss
  {
    hide At, EncodeSample, ReadSamples, ValidSample;
    if ss == [] {
      NoSamples(data, off);
    } else {
      SampleStep(data, off, ss[0], EncodeSamples(ss[1..]), |ss|);
      SamplesRoundTrip(data, off + |EncodeSample(ss[0])|, ss[1..]);
    }
  }

  lemma NoSamples(data: Bytes, off: nat)
    ensures ReadSamples(data, off, 0) == NOTHING
  {}

  lemma SampleStep(data: Bytes, off: nat, s: Sample, rest: Bytes, count: nat)
    requires ValidSample(s) && At(data, off, EncodeSample(s) + rest) && count > 0
    ensures var next := off + |EncodeSample(s)|;
            && ReadSamples(data, off, count) == Join(SampleMeans(s), ReadSamples(data, next, count - 1))
            && At(data, next, rest)
  {
    hide *;
    SampleParts(data, off, s, rest);
    SampleFine(s);
    SampleSize(s);
    SamplesUnfold(data, off, count);
  }

  lemma SampleSize(s: Sample)
    requires ValidSample(s)
    ensures |EncodeSample(s)| == 8 + |SampleBody(s)|
  {
    hide SampleBody;
  }

  lemma SamplesUnfold(data: Bytes, off: nat, count: nat)
    requires count > 0 && off + 8 <= |data|
    ensures ReadSamples(data, off, count) ==
            var one := ReadSample(data, U32(data, off), off + 8);
            if one.raised then one else Join(one, ReadSamples(data, off + 8 + U32(data, off + 4), count - 1))
  {}

  lemma SampleFine(s: Sample)
    ensures !SampleMeans(s).raised
  {
    if s.FlowSample? {
      RecordsMeanFine(s.records, s.rate);
    }
  }

  lemma SampleParts(data: Bytes, off: nat, s: Sample, rest: Bytes)
    requires ValidSample(s) && At(data, off, EncodeSample(s) + rest)
    ensures off + 8 <= |data| && U32(data, off) == s.fmt && U32(data, off + 4) == |SampleBody(s)|
    ensures ReadSample(data, s.fmt, off + 8) == SampleMeans(s)
    ensures At(data, off + 8 + |SampleBody(s)|, rest)
  {
    hide At, U32, EncodeU32, ReadSample, SampleBody, SampleMeans, EncodeSample, ValidRecord, RateAt, CountAt, Join;
    SampleBounds(s);
    var body := SampleBody(s);
    hide ValidSample;
    HeadedAt(data, off, s.fmt, body, rest);
    SampleBodyAt(data, off + 8, s);
  }

  lemma HeadedAt(data: Bytes, off: nat, fmt: nat, body: Bytes, rest: Bytes)
    requires fmt < WORD && |body| < WORD
    requires At(data, off, EncodeU32(fmt) + (EncodeU32(|body|) + body) + rest)
    ensures off + 8 <= |data| && U32(data, off) == fmt && U32(data, off + 4) == |body|
    ensures At(data, off + 8, body) && At(data, off + 8 + |body|, rest)
  {
    hide At, U32, EncodeU32;
    var size := EncodeU32(|body|) + body;
    AtSplit(data, off, EncodeU32(fmt) + size, rest);
    AtSplit(data, off, EncodeU32(fmt), size);
    AtSplit(data, off + 4, EncodeU32(|body|), body);
    U32At(data, off, fmt);
    U32At(data, off + 4, |body|);
  }

  lemma SampleBounds(s: Sample)
    requires ValidSample(s)
    ensures s.fmt < WORD && |SampleBody(s)| < WORD
    ensures EncodeSample(s) == EncodeU32(s.fmt) + (EncodeU32(|SampleBody(s)|) + SampleBody(s))
    ensures |EncodeSample(s)| == 8 + |SampleBody(s)|
  {}

  // A whole datagram: in `agent` the agent's address, of 4 octets (type 1) or 16,
  // its sub-agent, sequence number and uptime.
  function EncodeDatagram(addressType: nat, agent: Bytes, samples: seq<Sample>, trailer: Bytes): Bytes
    requires addressType < WORD && |agent| == (if addressType == 1 then 16 else 28) && |samples| < WORD
    requires forall s :: s in samples ==> ValidSample(s)
  {
    EncodeU32(5) + (EncodeU32(addressType) + (agent + (EncodeU32(|samples|) + (EncodeSamples(samples) + trailer))))
  }

  lemma DatagramParts(addressType: nat, agent: Bytes, samples: seq<Sample>, trailer: Bytes)
    requires addressType < WORD && |agent| == (if addressType == 1 then 16 else 28) && |samples| < WORD
    requires forall s :: s in samples ==> ValidSample(s)
    ensures var data := EncodeDatagram(addressType, agent, samples, trailer);
            && |data| >= 12 + |agent| && U32(data, 0) == 5 && U32(data, 4) == addressType
            && U32(data, 8 + |agent|) == |samples| && At(data, 12 + |agent|, EncodeSamples(samples))
  {
    var data := EncodeDatagram(addressType, agent, samples, trailer);
    assert At(data, 0, data);
    hide At, U32, EncodeU32, ValidSample, EncodeSamples;
    var t3 := EncodeSamples(samples) + trailer;
    var t2 := EncodeU32(|samples|) + t3;
    var t1 := agent + t2;
    AtSplit(data, 0, EncodeU32(5), EncodeU32(addressType) + t1);
    AtSplit(data, 4, EncodeU32(addressType), t1);
    AtSplit(data, 8, agent, t2);
    AtSplit(data, 8 + |agent|, EncodeU32(|samples|), t3);
    AtSplit(data, 12 + |agent|, EncodeSamples(samples), trailer);
    U32At(data, 0, 5);
    U32At(data, 4, addressType);
    U32At(data, 8 + |agent|, |samples|);
  }

  // Every sampled IPv4 header is accounted once, in order, its frame's length
  // times the sampling rate; every other record and sample is passed over.
  lemma DatagramRoundTrip(addressType: nat, agent: Bytes, samples: seq<Sample>, trailer: Bytes)
    requires addressType < WORD && |agent| == (if addressType == 1 then 16 else 28) && |samples| < WORD
    requires forall s :: s in samples ==> ValidSample(s)
    ensures var data := EncodeDatagram(addressType, agent, samples, trailer);
            |data| >= 4 && U32(data, 0) == 5 && ReadDatagram(data) == SamplesMean(samples)
  {
    hide At, U32, EncodeDatagram, ReadSamples, ValidSample, EncodeSamples, SamplesMean;
    DatagramParts(addressType, agent, samples, trailer);
    SamplesRoundTrip(EncodeDatagram(addressType, agent, samples, trailer), 12 + |agent|, samples);
  }
}
