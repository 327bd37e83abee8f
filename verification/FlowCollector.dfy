// The collector's state and the methods that update it in place, proved
// against the decoding of FlowWire and FlowSflow and the accounting of FlowAccount.

module FlowCollector {
  import opened FlowAccount
  import opened FlowEncoding
  import opened FlowSflow
  import opened FlowWire
  import opened OctetStrings
  import opened Options

  function FlowEvents(calls: seq<Call>, now: real): (events: seq<Event>)
    ensures |events| == |calls| && forall i :: 0 <= i < |calls| ==> events[i] == Flow(calls[i], now)
  {
    seq(|calls|, i requires 0 <= i < |calls| => Flow(calls[i], now))
  }

  lemma FlowEventsConcat(a: seq<Call>, b: seq<Call>, now: real)
    ensures FlowEvents(a + b, now) == FlowEvents(a, now) + FlowEvents(b, now)
  {}

  predicate IsSflow(data: Bytes) {
    |data| >= 4 && U32(data, 0) == 5
  }

  // The calls of `account` for one datagram of any kind.
  function DatagramCalls(ts: Templates, data: Bytes): seq<Call> {
    if IsSflow(data) then ReadDatagram(data).calls else HandleMessage(ts, data).calls
  }

  predicate DatagramRaises(ts: Templates, data: Bytes) {
    if IsSflow(data) then ReadDatagram(data).raised else HandleMessage(ts, data).raised
  }

  // The templates known after it, and what it adds to the statistics.
  function DatagramTemplates(ts: Templates, data: Bytes): Templates {
    if IsSflow(data) then ts else HandleMessage(ts, data).templates
  }

  function DatagramRecords(ts: Templates, data: Bytes): nat {
    if !IsSflow(data) then HandleMessage(ts, data).records
    else if ReadDatagram(data).raised then 0
    else ReadDatagram(data).headers
  }

  function DatagramMissing(ts: Templates, data: Bytes): nat {
    if IsSflow(data) then 0 else HandleMessage(ts, data).missing
  }

  // What starts with a nonzero 16-bit version is no sFlow datagram.
  lemma NotSflow(ts: Templates, data: Bytes)
    requires |data| >= 4 && U16(data, 0) > 0
    ensures DatagramCalls(ts, data) == HandleMessage(ts, data).calls && DatagramRaises(ts, data) == HandleMessage(ts, data).raised
    ensures DatagramTemplates(ts, data) == HandleMessage(ts, data).templates
    ensures DatagramRecords(ts, data) == HandleMessage(ts, data).records && DatagramMissing(ts, data) == HandleMessage(ts, data).missing
  {
    hide HandleMessage, U16;
  }

  // The router's NetFlow v9 as a datagram: it is accounted record by record, learns
  // the template and raises nothing.
  lemma V9Datagram(ts: Templates, lead: Bytes, source: nat, t: TemplateRecord, records: seq<seq<Value>>, pad: Bytes, tail: Bytes)
    requires |lead| == 14 && source < 0x1_0000_0000 && Exportable(t, false, records, tail) && |pad| < 4
    requires ValidSets(TemplateAndData(0, t, false, pad, records, tail))
    ensures var data := EncodeV9(lead, source, TemplateAndData(0, t, false, pad, records, tail));
            && DatagramCalls(ts, data) == RecordCalls(StoredAll(t.specs), records) && !DatagramRaises(ts, data)
            && DatagramTemplates(ts, data) == ts[TemplateKey(9, source, t.id) := StoredAll(t.specs)]
            && DatagramRecords(ts, data) == |records| && DatagramMissing(ts, data) == 0
  {
    var data := EncodeV9(lead, source, TemplateAndData(0, t, false, pad, records, tail));
    V9RoundTrip(ts, lead, source, t, records, pad, tail);
    LearnOne(ts, 9, source, t);
    V9Version(lead, source, TemplateAndData(0, t, false, pad, records, tail));
    hide *;
    NotSflow(ts, data);
  }

  lemma V9Version(lead: Bytes, source: nat, sets: seq<FlowSet>)
    requires |lead| == 14 && source < 0x1_0000_0000 && ValidSets(sets)
    ensures |EncodeV9(lead, source, sets)| >= 4 && U16(EncodeV9(lead, source, sets), 0) == 9
  {
    hide EncodeSets, EncodeU32;
    assert EncodeV9(lead, source, sets)[0..2] == EncodeU16(9);
  }

  // An sFlow datagram as one: its sampled headers are accounted and counted.
  lemma SflowDatagram(ts: Templates, addressType: nat, agent: Bytes, samples: seq<Sample>, trailer: Bytes)
    requires addressType < WORD && |agent| == (if addressType == 1 then 16 else 28) && |samples| < WORD
    requires forall s :: s in samples ==> ValidSample(s)
    ensures var data := EncodeDatagram(addressType, agent, samples, trailer);
            && DatagramCalls(ts, data) == SamplesMean(samples).calls && !DatagramRaises(ts, data)
            && DatagramTemplates(ts, data) == ts && DatagramMissing(ts, data) == 0
            && DatagramRecords(ts, data) == SamplesMean(samples).headers
  {
    SamplesMeanFine(samples);
    DatagramRoundTrip(addressType, agent, samples, trailer);
    hide EncodeDatagram, ReadDatagram, SamplesMean, HandleMessage, U32;
  }

  class Collector {
    const setup: Setup
    var templates: Templates
    var counters: Counters
    var table: AsnTable
    var records: nat
    var recordsLanWan: nat
    var recordsPostNat: nat
    var missing: nat
    var decodeErrors: nat
    var packets: map<nat, nat>
    var sflowPackets: nat
    var lastPacket: real
    var templateCount: nat  // the templates statistic
    ghost var events: seq<Event>  // every record, rendering and table load so far

    // The counters are those of the run so far.
    ghost predicate Valid()
      reads this
    {
      ValidRun(events) && State(counters, table) == Replay(setup, events) && templateCount == |templates|
    }

    // One more packet of this version.
    function Counted(version: nat): map<nat, nat>
      reads this
    {
      packets[version := (if version in packets then packets[version] else 0) + 1]
    }

    constructor (setup: Setup)
      ensures Valid() && this.setup == setup && events == []
    {
      this.setup := setup;
      templates, counters, table := map[], map[], AsnTable([], [], []);
      records, recordsLanWan, recordsPostNat, missing, decodeErrors := 0, 0, 0, 0, 0;
      packets, sflowPackets, events := map[], 0, [];
      lastPacket, templateCount := 0.0, 0;
    }

    method Account(c: Call, now: real)
      requires Valid()
      modifies `counters, `recordsLanWan, `recordsPostNat, `events
      ensures Valid() && events == old(events) + [Flow(c, now)]
      ensures recordsLanWan == old(recordsLanWan) + (if Credit(setup, table, c).Some? then 1 else 0)
      ensures recordsPostNat == old(recordsPostNat) + (if c.octets > 0 && IsPreNatDownload(setup, c) then 1 else 0)
    {
      ghost var e := Flow(c, now);
      assert (events + [e])[..|events|] == events;
      events := events + [e];
      if c.octets == 0 {
        return;
      }
      var dst, srcLan, dstLan := c.dst, IsLan(setup, c.src), IsLan(setup, c.dst);
      if !srcLan && !dstLan && c.postNat.Some? && IsLan(setup, c.postNat.value) {
        dst, dstLan := c.postNat.value, true;
        recordsPostNat := recordsPostNat + 1;
      }
      if srcLan == dstLan {
        return;
      }
      var direction, client, remote, remotePort, clientPort;
      if srcLan {
        direction, client, remote, remotePort, clientPort := Transmit, c.src, dst, c.dport, c.sport;
      } else {
        direction, client, remote, remotePort, clientPort := Receive, dst, c.src, c.sport, c.dport;
      }
      var key := Key(direction, client, LookupAsn(table, remote), ServiceOf(setup.services, c.proto, remotePort, clientPort));
      recordsLanWan := recordsLanWan + 1;
      if key !in counters {
        counters := counters[key := Counter(c.octets, now)];
      } else {
        counters := counters[key := Counter(counters[key].bytes + c.octets, now)];
      }
    }

    // The field loop of `_parse_template_set`; None for a struct.error.
    method ParseFields(body: Bytes, start: nat, count: nat, ipfix: bool) returns (res: Option<(seq<Field>, nat)>)
      ensures res == ReadFields(body, start, count, ipfix)
    {
      hide U16;
      var fields: seq<Field>, off: nat := [], start;
      PrefixedMore([], Field(0, 0), ReadFields(body, start, count, ipfix));
      for n: nat := 0 to count
        invariant ReadFields(body, start, count, ipfix) == Prefixed(fields, ReadFields(body, off, count - n, ipfix))
      {
        if off + 4 > |body| {
          return None;
        }
        var ftype, len := U16(body, off), U16(body, off + 2);
        off := off + 4;
        if ipfix && ftype >= 0x8000 {
          off := off + 4;
          ftype := 0x8000;
        }
        PrefixedMore(fields, Field(ftype, len), ReadFields(body, off, count - n - 1, ipfix));
        fields := fields + [Field(ftype, len)];
      }
      assert fields + [] == fields;
      res := Some((fields, off));
    }

    // `_parse_template_set`; true when a struct.error escapes.
    method ParseTemplateSet(version: nat, domain: nat, body: Bytes, ipfix: bool) returns (raised: bool)
      requires templateCount == |templates|
      modifies `templates, `templateCount
      ensures (templates, raised) == TemplateSet(old(templates), version, domain, body, 0, ipfix)
      ensures templateCount == |templates|
    {
      hide U16, ReadFields;
      var off: nat := 0;
      while off + 4 <= |body|
        invariant TemplateSet(old(templates), version, domain, body, 0, ipfix) ==
                  TemplateSet(templates, version, domain, body, off, ipfix)
        invariant templateCount == |templates|
        decreases |body| - off
      {
        var id, count := U16(body, off), U16(body, off + 2);
        if id < 256 {
          return false;
        }
        var res := ParseFields(body, off + 4, count, ipfix);
        if res.None? {
          return true;
        }
        templates := templates[TemplateKey(version, domain, id) := res.value.0];
        templateCount := |templates|;
        off := res.value.1;
      }
      raised := false;
    }

    // The field loop of `_parse_data_set`; None for the errors it catches.
    method ParseRecord(fields: seq<Field>, body: Bytes, start: nat) returns (res: Option<(Record, nat)>)
      ensures res == ReadRecord(fields, body, start, EMPTY)
    {
      hide U16, Slice, Store;
      var r, off: nat := EMPTY, start;
      for i := 0 to |fields|
        invariant ReadRecord(fields, body, start, EMPTY) == ReadRecord(fields[i..], body, off, r)
      {
        var ftype, len: nat := fields[i].ftype, fields[i].len;
        assert fields[i..][0] == fields[i] && fields[i..][1..] == fields[i + 1..];
        if len == VARIABLE {
          if off >= |body| {
            return None;
          }
          len := body[off];
          off := off + 1;
          if len == 255 {
            if off + 2 > |body| {
              return None;
            }
            len := U16(body, off);
            off := off + 2;
          }
        }
        r := Store(r, ftype, len, Slice(body, off, len));
        off := off + len;
      }
      res := Some((r, off));
    }

    method ParseDataSet(version: nat, domain: nat, id: nat, body: Bytes, now: real)
      requires Valid() && id >= 256
      modifies `counters, `recordsLanWan, `recordsPostNat, `events, `records, `missing
      ensures Valid()
      ensures var o := HandleSet(templates, version, domain, id, body, version == 10);
              && events == old(events) + FlowEvents(o.calls, now)
              && records == old(records) + o.records && missing == old(missing) + o.missing
    {
      hide ReadRecord, ValidRun, Replay, FlowEvents, CallsOf, MinLen, AllFixed, TemplateSet;
      FlowEventsNone(now);
      if TemplateKey(version, domain, id) !in templates {
        missing := missing + 1;
        return;
      }
      var fields := templates[TemplateKey(version, domain, id)];
      ghost var all := DataRecords(fields, body, 0);
      CallsOfNone();
      var allFixed, minLen := AllFixed(fields), MinLen(fields);
      var off: nat, n: nat := 0, 0;
      while off + minLen <= |body| && minLen > 0
        invariant n <= |all| && DataRecords(fields, body, off) == all[n..]
        invariant Valid() && events == old(events) + FlowEvents(CallsOf(all[..n]), now)
        invariant records == old(records) && missing == old(missing)
        decreases |body| - off
      {
        var start := off;
        var res := ParseRecord(fields, body, off);
        if res == None {
          break;
        }
        var (r, next) := res.value;
        off := next;
        if off == start || off > |body| {
          break;
        }
        if !allFixed && r.src == None && r.dst == None && r.octets == 0 {
          break;
        }
        assert all[n..][0] == all[n] && all[n..][1..] == all[n + 1..] && all[n].record == r;
        assert all[..n + 1] == all[..n] + [all[n]];
        CallsAppend(all[..n], all[n]);
        FlowEventsConcat(CallsOf(all[..n]), CallOf(r), now);
        n := n + 1;
        if r.src.Some? && r.dst.Some? {
          FlowEventsOne(CallOf(r)[0], now);
          Account(Call(r.src.value, r.dst.value, r.octets, r.postNat, r.proto, r.sport, r.dport), now);
        }
      }
      assert all[n..] == [] && n == |all| && all[..n] == all;
      records := records + n;
    }

    // The record loop of a NetFlow v5 packet.
    method HandleV5(data: Bytes, now: real)
      requires Valid() && |data| >= 4
      modifies `counters, `recordsLanWan, `recordsPostNat, `events, `records
      ensures Valid() && events == old(events) + FlowEvents(V5Calls(data, 0, U16(data, 2)), now)
      ensures records == old(records) + U16(data, 2)
    {
      hide U16, U32, FlowEvents, ValidRun, Replay;
      FlowEventsNone(now);
      var count, i := U16(data, 2), 0;
      ghost var all := V5Calls(data, 0, count);
      while i < count
        invariant i <= |all| && i <= count && V5Calls(data, i, count) == all[i..]
        invariant Valid() && events == old(events) + FlowEvents(all[..i], now) && records == old(records)
      {
        var off := 24 + i * 48;
        if off + 48 > |data| {
          break;
        }
        assert all[i..][0] == all[i] && all[i..][1..] == all[i + 1..] && all[..i + 1] == all[..i] + [all[i]];
        FlowEventsConcat(all[..i], [all[i]], now);
        FlowEventsOne(all[i], now);
        Account(Call(U32(data, off), U32(data, off + 4), U32(data, off + 20), None,
                     data[off + 38], U16(data, off + 32), U16(data, off + 34)), now);
        i := i + 1;
      }
      assert all[i..] == [] && all[..i] == all;
      records := records + count;
    }

    // The set loop; true when an error escapes.
    method HandleSetsOf(version: nat, domain: nat, data: Bytes, start: nat, end: nat, ipfix: bool, now: real) returns (raised: bool)
      requires Valid() && end <= |data| && ipfix == (version == 10)
      modifies `counters, `recordsLanWan, `recordsPostNat, `events, `records, `missing, `templates, `templateCount
      ensures Valid()
      ensures var o := HandleSets(old(templates), version, domain, data, start, end, ipfix);
              && events == old(events) + FlowEvents(o.calls, now)
              && templates == o.templates && raised == o.raised
              && records == old(records) + o.records && missing == old(missing) + o.missing
    {
      hide HandleSet, HandleSets, Then, FlowEvents, ValidRun, Replay, Slice, U16;
      var off: nat := start;
      ghost var done := Outcome(templates, [], 0, 0, false);
      ThenNothing(done, HandleSets(templates, version, domain, data, off, end, ipfix), now);
      while off + 4 <= end
        invariant Valid() && !done.raised && done.templates == templates
        invariant events == old(events) + FlowEvents(done.calls, now)
        invariant records == old(records) + done.records && missing == old(missing) + done.missing
        invariant HandleSets(old(templates), version, domain, data, start, end, ipfix) ==
                  Then(done, HandleSets(templates, version, domain, data, off, end, ipfix))
        decreases end - off
      {
        var id, len := U16(data, off), U16(data, off + 2);
        SetsUnfold(templates, version, domain, data, off, end, ipfix);
        if len < 4 {
          break;
        }
        var body := Slice(data, off + 4, len - 4);
        ghost var one := HandleSet(templates, version, domain, id, body, ipfix);
        ThenAssociates(done, one, HandleSets(one.templates, version, domain, data, off + len, end, ipfix));
        ThenParts(done, one, now);
        raised := HandleOneSet(version, domain, id, body, ipfix, now);
        done := Then(done, one);
        if raised {
          return;
        }
        off := off + len;
      }
      SetsUnfold(templates, version, domain, data, off, end, ipfix);
      ThenParts(done, HandleSets(templates, version, domain, data, off, end, ipfix), now);
      FlowEventsNone(now);
      raised := false;
    }

    method HandleOneSet(version: nat, domain: nat, id: nat, body: Bytes, ipfix: bool, now: real) returns (raised: bool)
      requires Valid() && ipfix == (version == 10)
      modifies `counters, `recordsLanWan, `recordsPostNat, `events, `records, `missing, `templates, `templateCount
      ensures Valid()
      ensures var o := HandleSet(old(templates), version, domain, id, body, ipfix);
              && events == old(events) + FlowEvents(o.calls, now)
              && templates == o.templates && raised == o.raised
              && records == old(records) + o.records && missing == old(missing) + o.missing
    {
      raised := false;
      if id == 0 || id == 2 {
        raised := ParseTemplateSet(version, domain, body, ipfix);
      } else if id >= 256 {
        ParseDataSet(version, domain, id, body, now);
      }
    }

    // `_account_ip_header`.
    method AccountIpHeader(h: Bytes, octets: nat, now: real)
      requires Valid()
      modifies `counters, `recordsLanWan, `recordsPostNat, `events
      ensures Valid() && events == old(events) + FlowEvents(IpCalls(h, octets), now)
    {
      hide FlowEvents, ValidRun, Replay, U16, U32;
      FlowEventsNone(now);
      if |h| < 20 || (h[0] as int) / 16 != 4 {
        return;
      }
      var src, dst, proto, at := U32(h, 12), U32(h, 16), h[9] as int, (h[0] as int) % 16 * 4;
      var sport, dport := 0, 0;
      if (proto == 6 || proto == 17) && |h| >= at + 4 {
        sport, dport := U16(h, at), U16(h, at + 2);
      }
      FlowEventsOne(Call(src, dst, octets, None, proto, sport, dport), now);
      Account(Call(src, dst, octets, None, proto, sport, dport), now);
    }

    // `_account_ether_header`.
    method AccountEtherHeader(h: Bytes, octets: nat, now: real)
      requires Valid()
      modifies `counters, `recordsLanWan, `recordsPostNat, `events
      ensures Valid() && events == old(events) + FlowEvents(EtherCalls(h, octets), now)
    {
      hide FlowEvents, ValidRun, Replay, U16, IpCalls;
      FlowEventsNone(now);
      if |h| < 14 {
        return;
      }
      var off: nat := 12;
      var etype := U16(h, off);
      while IsTag(etype) && off + 6 <= |h|
        invariant off + 2 <= |h| && etype == U16(h, off) && SkipTags(h, off) == SkipTags(h, 12)
        decreases |h| - off
      {
        off := off + 4;
        etype := U16(h, off);
      }
      if etype != ETHERTYPE_IPV4 {
        return;
      }
      AccountIpHeader(h[off + 2..], octets, now);
    }

    // The record loop of one flow sample: `n` raw headers, unless an error escapes.
    method HandleSampleRecords(data: Bytes, start: nat, count: nat, rate: nat, now: real) returns (n: nat, raised: bool)
      requires Valid()
      modifies `counters, `recordsLanWan, `recordsPostNat, `events
      ensures Valid()
      ensures var o := ReadRecords(data, start, count, rate);
              events == old(events) + FlowEvents(o.calls, now) && n == o.headers && raised == o.raised
    {
      hide FlowEvents, ValidRun, Replay, U32, Slice, EtherCalls, IpCalls, ReadRecords;
      FlowEventsNone(now);
      var off: nat := start;
      n, raised := 0, false;
      ghost var done := NOTHING;
      JoinNothing(ReadRecords(data, start, count, rate));
      for i: nat := 0 to count
        invariant Valid() && events == old(events) + FlowEvents(done.calls, now) && n == done.headers && !done.raised
        invariant ReadRecords(data, start, count, rate) == Join(done, ReadRecords(data, off, count - i, rate))
      {
        RecordsUnfold(data, off, count - i, rate);
        JoinRaised(done);
        if off + 8 > |data| {
          return n, true;
        }
        var fmt, length := U32(data, off), U32(data, off + 4);
        var r := off + 8;
        off := r + length;
        if fmt != 1 {
          continue;
        }
        if r + 16 > |data| {
          return n, true;
        }
        var proto, frameLength, hlen := U32(data, r), U32(data, r + 4), U32(data, r + 12);
        var header := Slice(data, r + 16, hlen);
        var octets := frameLength * if rate > 1 then rate else 1;
        n := n + 1;
        ghost var one := Sampled(HeaderCalls(proto, header, octets), 1, false);
        JoinAssociates(done, one, ReadRecords(data, off, count - i - 1, rate));
        FlowEventsConcat(done.calls, one.calls, now);
        done := Join(done, one);
        if proto == ETHERNET {
          AccountEtherHeader(header, octets, now);
        } else if proto == IPV4 {
          AccountIpHeader(header, octets, now);
        }
      }
      RecordsUnfold(data, off, 0, rate);
      JoinNothing(done);
    }

    method HandleSample(data: Bytes, fmt: nat, body: nat, now: real) returns (n: nat, raised: bool)
      requires Valid()
      modifies `counters, `recordsLanWan, `recordsPostNat, `events
      ensures Valid()
      ensures var o := ReadSample(data, fmt, body);
              events == old(events) + FlowEvents(o.calls, now) && n == o.headers && raised == o.raised
    {
      hide FlowEvents, ValidRun, Replay, U32, ReadRecords;
      FlowEventsNone(now);
      if !IsFlowSample(fmt) {
        return 0, false;
      }
      if body + CountAt(fmt) + 4 > |data| {
        return 0, true;
      }
      n, raised := HandleSampleRecords(data, body + CountAt(fmt) + 4, U32(data, body + CountAt(fmt)),
                                       U32(data, body + RateAt(fmt)), now);
    }

    // The sample loop.
    method HandleSamples(data: Bytes, start: nat, count: nat, now: real) returns (n: nat, raised: bool)
      requires Valid()
      modifies `counters, `recordsLanWan, `recordsPostNat, `events
      ensures Valid()
      ensures var o := ReadSamples(data, start, count);
              events == old(events) + FlowEvents(o.calls, now) && n == o.headers && raised == o.raised
    {
      hide FlowEvents, ValidRun, Replay, U32, ReadSamples, ReadSample, Join;
      FlowEventsNone(now);
      var off: nat := start;
      n, raised := 0, false;
      ghost var done := NOTHING;
      JoinNothing(ReadSamples(data, start, count));
      for i: nat := 0 to count
        invariant Valid() && events == old(events) + FlowEvents(done.calls, now) && n == done.headers && !done.raised
        invariant ReadSamples(data, start, count) == Join(done, ReadSamples(data, off, count - i))
      {
        SamplesEnd(data, off, count - i);
        JoinRaised(done);
        if off + 8 > |data| {
          return n, true;
        }
        SamplesUnfold(data, off, count - i);
        var fmt, length := U32(data, off), U32(data, off + 4);
        ghost var one := ReadSample(data, fmt, off + 8);
        ghost var before := done;
        JoinAssociates(done, one, ReadSamples(data, off + 8 + length, count - i - 1));
        JoinParts(done, one, now);
        var headers;
        headers, raised := HandleSample(data, fmt, off + 8, now);
        off := off + 8 + length;
        n := n + headers;
        done := Join(before, one);
        if raised {
          return;
        }
      }
      SamplesEnd(data, off, 0);
      JoinNothing(done);
      raised := false;
    }

    // `handle_sflow`; the headers are only counted when no error escapes.
    method HandleSflow(data: Bytes, now: real) returns (raised: bool)
      requires Valid()
      modifies `counters, `recordsLanWan, `recordsPostNat, `events, `records
      ensures Valid()
      ensures var o := ReadDatagram(data);
              && events == old(events) + FlowEvents(o.calls, now) && raised == o.raised
              && records == old(records) + (if o.raised then 0 else o.headers)
    {
      hide FlowEvents, ValidRun, Replay, U32, ReadSamples;
      FlowEventsNone(now);
      if |data| < 8 {
        return true;
      }
      var off: nat := 8 + (if U32(data, 4) == 1 then 4 else 16) + 12;
      if off + 4 > |data| {
        return true;
      }
      var n;
      n, raised := HandleSamples(data, off + 4, U32(data, off), now);
      if !raised {
        records := records + n;
      }
    }

    // `handle_packet`.
    method HandlePacket(data: Bytes, now: real) returns (raised: bool)
      requires Valid()
      modifies `counters, `recordsLanWan, `recordsPostNat, `events, `records, `missing
      modifies `templates, `templateCount, `packets, `sflowPackets, `lastPacket
      ensures Valid()
      ensures events == old(events) + FlowEvents(DatagramCalls(old(templates), data), now)
      ensures raised == DatagramRaises(old(templates), data)
      ensures templates == DatagramTemplates(old(templates), data)
      ensures records == old(records) + DatagramRecords(old(templates), data)
      ensures missing == old(missing) + DatagramMissing(old(templates), data)
      ensures packets == (if |data| < 4 || IsSflow(data) then old(packets) else old(Counted(U16(data, 0))))
      ensures sflowPackets == old(sflowPackets) + (if IsSflow(data) then 1 else 0)
      ensures lastPacket == if |data| < 4 then old(lastPacket) else now
    {
      hide HandleSets, V5Calls, ValidRun, Replay, ReadDatagram;
      raised := false;
      if |data| < 4 {
        return;
      }
      if U32(data, 0) == 5 {
        sflowPackets := sflowPackets + 1;
        lastPacket := now;
        raised := HandleSflow(data, now);
        return;
      }
      var version := U16(data, 0);
      packets := Counted(version);
      lastPacket := now;
      if version == 5 {
        HandleV5(data, now);
      } else if version == 9 {
        if |data| < 20 {
          return true;
        }
        raised := HandleSetsOf(9, U32(data, 16), data, 20, |data|, false, now);
      } else if version == 10 {
        if |data| < 16 {
          return true;
        }
        var length := U16(data, 2);
        raised := HandleSetsOf(10, U32(data, 12), data, 16, if length < |data| then length else |data|, true, now);
      }
    }

    // One turn of `flow_loop`: an escaped error is counted and the next packet handled.
    method OnDatagram(data: Bytes, now: real)
      requires Valid()
      modifies this
      ensures Valid()
      ensures events == old(events) + FlowEvents(DatagramCalls(old(templates), data), now)
      ensures templates == DatagramTemplates(old(templates), data)
      ensures records == old(records) + DatagramRecords(old(templates), data)
      ensures missing == old(missing) + DatagramMissing(old(templates), data)
      ensures decodeErrors == old(decodeErrors) + (if DatagramRaises(old(templates), data) then 1 else 0)
    {
      hide ValidRun, Replay, DatagramCalls, DatagramRaises, DatagramTemplates, DatagramRecords, DatagramMissing;
      var raised := HandlePacket(data, now);
      if raised {
        decodeErrors := decodeErrors + 1;
      }
    }

    // The expiry in `render`.
    method Expire(now: real)
      requires Valid()
      modifies `counters, `events
      ensures Valid() && events == old(events) + [Render(now)]
      ensures counters == Fresh(setup, old(counters), now)
    {
      assert (events + [Render(now)])[..|events|] == events;
      events := events + [Render(now)];
      var stale := set k | k in counters && Stale(setup, counters[k], now);
      while stale != {}
        invariant events == old(events) + [Render(now)]
        invariant stale <= counters.Keys && forall k :: k in counters ==> k in old(counters) && counters[k] == old(counters)[k]
        invariant forall k :: k in stale ==> Stale(setup, counters[k], now)
        invariant forall k :: k in old(counters) ==> (k in counters <==> !Stale(setup, old(counters)[k], now) || k in stale)
        decreases stale
      {
        var k :| k in stale;
        counters := counters - {k};
        stale := stale - {k};
      }
      assert counters == Fresh(setup, old(counters), now);
    }

    // `refresh_asn_db` installing a new table.
    method LoadTable(t: AsnTable)
      requires Valid() && t.Aligned()
      modifies `table, `events
      ensures Valid() && events == old(events) + [Load(t)] && table == t
    {
      assert (events + [Load(t)])[..|events|] == events;
      events := events + [Load(t)];
      table := t;
    }
  }

  function Prefixed(fields: seq<Field>, rest: Option<(seq<Field>, nat)>): Option<(seq<Field>, nat)> {
    if rest.None? then None else Some((fields + rest.value.0, rest.value.1))
  }

  lemma PrefixedMore(fields: seq<Field>, f: Field, rest: Option<(seq<Field>, nat)>)
    ensures Prefixed(fields, Prefixed([f], rest)) == Prefixed(fields + [f], rest)
    ensures Prefixed([], rest) == rest
  {
    if rest.Some? {
      assert fields + ([f] + rest.value.0) == fields + [f] + rest.value.0;
      assert [] + rest.value.0 == rest.value.0;
    }
  }

  lemma {:induction false} CallsAppend(ds: seq<Decoded>, d: Decoded)
    ensures CallsOf(ds + [d]) == CallsOf(ds) + CallOf(d.record)
  {
    if ds == [] {
      assert [] + [d] == [d] && CallsOf([d]) == CallOf(d.record) + CallsOf([]);
    } else {
      assert (ds + [d])[1..] == ds[1..] + [d];
      CallsAppend(ds[1..], d);
    }
  }

  lemma SetsUnfold(ts: Templates, version: nat, domain: nat, data: Bytes, off: nat, end: nat, ipfix: bool)
    requires end <= |data|
    ensures HandleSets(ts, version, domain, data, off, end, ipfix) ==
            if off + 4 > end || U16(data, off + 2) < 4 then Outcome(ts, [], 0, 0, false)
            else
              var len := U16(data, off + 2);
              var one := HandleSet(ts, version, domain, U16(data, off), Slice(data, off + 4, len - 4), ipfix);
              if one.raised then one
              else Then(one, HandleSets(one.templates, version, domain, data, off + len, end, ipfix))
  {}

  lemma ThenNothing(none: Outcome, o: Outcome, now: real)
    requires none.calls == [] && none.records == 0 && none.missing == 0
    ensures Then(none, o) == o && FlowEvents(none.calls, now) == []
  {
    assert [] + o.calls == o.calls;
  }

  lemma ThenParts(a: Outcome, b: Outcome, now: real)
    ensures Then(a, b).templates == b.templates && Then(a, b).raised == b.raised
    ensures Then(a, b).records == a.records + b.records && Then(a, b).missing == a.missing + b.missing
    ensures FlowEvents(Then(a, b).calls, now) == FlowEvents(a.calls, now) + FlowEvents(b.calls, now)
  {
    FlowEventsConcat(a.calls, b.calls, now);
  }

  lemma FlowEventsOne(c: Call, now: real)
    ensures FlowEvents([c], now) == [Flow(c, now)]
  {}

  lemma CallsOfNone()
    ensures CallsOf([]) == []
  {}

  lemma FlowEventsNone(now: real)
    ensures FlowEvents([], now) == []
  {}

  lemma ThenAssociates(a: Outcome, b: Outcome, c: Outcome)
    ensures Then(Then(a, b), c) == Then(a, Then(b, c))
  {
    assert a.calls + b.calls + c.calls == a.calls + (b.calls + c.calls);
  }

  lemma JoinNothing(o: Sampled)
    ensures Join(NOTHING, o) == o
    ensures !o.raised ==> Join(o, NOTHING) == o
  {
    assert [] + o.calls == o.calls && o.calls + [] == o.calls;
  }

  lemma JoinParts(a: Sampled, b: Sampled, now: real)
    ensures Join(a, b).headers == a.headers + b.headers && Join(a, b).raised == b.raised
    ensures FlowEvents(Join(a, b).calls, now) == FlowEvents(a.calls, now) + FlowEvents(b.calls, now)
  {
    FlowEventsConcat(a.calls, b.calls, now);
  }

  lemma JoinRaised(o: Sampled)
    ensures Join(o, NOTHING.(raised := true)) == o.(raised := true)
  {
    assert o.calls + [] == o.calls;
  }

  lemma JoinAssociates(a: Sampled, b: Sampled, c: Sampled)
    ensures Join(Join(a, b), c) == Join(a, Join(b, c))
  {
    assert a.calls + b.calls + c.calls == a.calls + (b.calls + c.calls);
  }

  lemma RecordsUnfold(data: Bytes, off: nat, count: nat, rate: nat)
    ensures ReadRecords(data, off, count, rate) ==
            if count == 0 then NOTHING
            else if off + 8 > |data| then NOTHING.(raised := true)
            else
              var r, next := off + 8, off + 8 + U32(data, off + 4);
              if U32(data, off) != 1 then ReadRecords(data, next, count - 1, rate)
              else if r + 16 > |data| then NOTHING.(raised := true)
              else
                var header := Slice(data, r + 16, U32(data, r + 12));
                Join(Sampled(HeaderCalls(U32(data, r), header, Scaled(U32(data, r + 4), rate)), 1, false),
                     ReadRecords(data, next, count - 1, rate))
  {}

  lemma SamplesEnd(data: Bytes, off: nat, count: nat)
    ensures count == 0 ==> ReadSamples(data, off, count) == NOTHING
    ensures count > 0 && off + 8 > |data| ==> ReadSamples(data, off, count) == NOTHING.(raised := true)
  {}
}
