// Decoding of NetFlow v9 / IPFIX template and data sets, as functions on byte
// strings, and the encoding they invert.

module FlowWire {
  import opened OctetStrings
  import opened Options

  const VARIABLE := 0xFFFF

  const F_PROTO := 4
  const F_SPORT := 7
  const F_SRC4 := 8
  const F_DPORT := 11
  const F_DST4 := 12
  const F_OUT_BYTES := 23
  const F_POST_NAT_DST4 := 226

  predicate IsOctets(ftype: nat) {
    ftype == 1 || ftype == 85
  }

  datatype Field = Field(ftype: nat, len: nat)

  // A record's fields as far as they are used.
  datatype Record = Record(src: Option<nat>, dst: Option<nat>, postNat: Option<nat>,
                           octets: nat, proto: nat, sport: nat, dport: nat)

  const EMPTY := Record(None, None, None, 0, 0, 0, 0)

  function U16(b: Bytes, off: nat): nat
    requires off + 2 <= |b|
  {
    256 * (b[off] as int) + b[off + 1] as int
  }

  // `body[off:off + n]`, cut off at the end of the body.
  function Slice(body: Bytes, off: nat, n: nat): Bytes {
    if off >= |body| then [] else if off + n > |body| then body[off..] else body[off..off + n]
  }

  // ---- one field

  // Where the value starts and how long it is; None is an IndexError or struct.error.
  function FieldExtent(f: Field, body: Bytes, off: nat): Option<(nat, nat)> {
    if f.len != VARIABLE then Some((off, f.len))
    else if off >= |body| then None
    else if body[off] != 255 then Some((off + 1, body[off]))
    else if off + 3 > |body| then None
    else Some((off + 3, U16(body, off + 1)))
  }

  function Store(r: Record, ftype: nat, len: nat, value: Bytes): Record {
    if ftype == F_SRC4 && len == 4 then r.(src := Some(Uint(value)))
    else if ftype == F_DST4 && len == 4 then r.(dst := Some(Uint(value)))
    else if ftype == F_POST_NAT_DST4 && len == 4 then r.(postNat := Some(Uint(value)))
    else if ftype == F_PROTO then r.(proto := Uint(value))
    else if ftype == F_SPORT then r.(sport := Uint(value))
    else if ftype == F_DPORT then r.(dport := Uint(value))
    else if IsOctets(ftype) || (ftype == F_OUT_BYTES && r.octets == 0) then
      r.(octets := if Uint(value) > r.octets then Uint(value) else r.octets)
    else r
  }

  // ---- one record

  function ReadRecord(fields: seq<Field>, body: Bytes, off: nat, r: Record): (res: Option<(Record, nat)>)
    ensures res.Some? ==> res.value.1 >= off
    decreases fields
  {
    if fields == [] then Some((r, off))
    else
      match FieldExtent(fields[0], body, off)
      case None => None
      case Some((at, len)) =>
        ReadRecord(fields[1..], body, at + len, Store(r, fields[0].ftype, len, Slice(body, at, len)))
  }

  function MinLen(fields: seq<Field>): nat {
    if fields == [] then 0
    else (if fields[0].len == VARIABLE then 1 else fields[0].len) + MinLen(fields[1..])
  }

  predicate AllFixed(fields: seq<Field>) {
    forall f :: f in fields ==> f.len != VARIABLE
  }

  // ---- a data set

  datatype Decoded = Decoded(record: Record, start: nat, end: nat)

  predicate ZeroPadding(fields: seq<Field>, r: Record) {
    !AllFixed(fields) && r.src == None && r.dst == None && r.octets == 0
  }

  function DataRecords(fields: seq<Field>, body: Bytes, off: nat): seq<Decoded>
    decreases |body| - off
  {
    if MinLen(fields) == 0 || off + MinLen(fields) > |body| then []
    else
      match ReadRecord(fields, body, off, EMPTY)
      case None => []
      case Some((r, next)) =>
        if next == off || next > |body| || ZeroPadding(fields, r) then []
        else [Decoded(r, off, next)] + DataRecords(fields, body, next)
  }

  // One call of `account`.
  datatype Call = Call(src: nat, dst: nat, octets: nat, postNat: Option<nat>, proto: nat, sport: nat, dport: nat)

  function CallOf(r: Record): seq<Call> {
    if r.src.Some? && r.dst.Some? then
      [Call(r.src.value, r.dst.value, r.octets, r.postNat, r.proto, r.sport, r.dport)]
    else []
  }

  function CallsOf(records: seq<Decoded>): seq<Call> {
    if records == [] then [] else CallOf(records[0].record) + CallsOf(records[1..])
  }

  // Every decoded record lies inside the body, after the one before it.
  lemma {:induction false} RecordsInside(fields: seq<Field>, body: Bytes, off: nat, i: nat)
    requires i < |DataRecords(fields, body, off)|
    ensures var ds := DataRecords(fields, body, off);
            && off <= ds[i].start < ds[i].end <= |body|
            && (i + 1 < |ds| ==> ds[i + 1].start == ds[i].end)
    decreases |body| - off
  {
    var ds := DataRecords(fields, body, off);
    var next := ds[0].end;
    if i == 0 {
      if |ds| > 1 {
        assert ds[1] == DataRecords(fields, body, next)[0];
      }
    } else {
      RecordsInside(fields, body, next, i - 1);
    }
  }

  // ---- template sets

  datatype TemplateKey = TemplateKey(version: nat, domain: nat, id: nat)

  type Templates = map<TemplateKey, seq<Field>>

  // The field list at `off`; None is a struct.error. An enterprise number is skipped unread.
  function ReadFields(body: Bytes, off: nat, count: nat, ipfix: bool): (res: Option<(seq<Field>, nat)>)
    ensures res.Some? ==> res.value.1 >= off
    decreases count
  {
    if count == 0 then Some(([], off))
    else if off + 4 > |body| then None
    else
      var ftype, len := U16(body, off), U16(body, off + 2);
      var foreign := ipfix && ftype >= 0x8000;
      match ReadFields(body, if foreign then off + 8 else off + 4, count - 1, ipfix)
      case None => None
      case Some((rest, end)) => Some(([Field(if foreign then 0x8000 else ftype, len)] + rest, end))
  }

  // The templates after a template set, and whether it raised on the way.
  function TemplateSet(ts: Templates, version: nat, domain: nat, body: Bytes, off: nat, ipfix: bool): (Templates, bool)
    decreases |body| - off
  {
    if off + 4 > |body| || U16(body, off) < 256 then (ts, false)
    else
      match ReadFields(body, off + 4, U16(body, off + 2), ipfix)
      case None => (ts, true)
      case Some((fields, next)) =>
        TemplateSet(ts[TemplateKey(version, domain, U16(body, off)) := fields], version, domain, body, next, ipfix)
  }

  // ---- messages

  // What handling some input does: templates learnt, calls of `account` in
  // order, the record and missing-template counts, and whether it raised.
  datatype Outcome = Outcome(templates: Templates, calls: seq<Call>, records: nat, missing: nat, raised: bool)

  function Then(a: Outcome, b: Outcome): Outcome {
    Outcome(b.templates, a.calls + b.calls, a.records + b.records, a.missing + b.missing, b.raised)
  }

  function HandleSet(ts: Templates, version: nat, domain: nat, id: nat, body: Bytes, ipfix: bool): Outcome {
    if id == 0 || id == 2 then
      var (learnt, raised) := TemplateSet(ts, version, domain, body, 0, ipfix);
      Outcome(learnt, [], 0, 0, raised)
    else if id < 256 then Outcome(ts, [], 0, 0, false)
    else if TemplateKey(version, domain, id) !in ts then Outcome(ts, [], 0, 1, false)
    else
      var records := DataRecords(ts[TemplateKey(version, domain, id)], body, 0);
      Outcome(ts, CallsOf(records), |records|, 0, false)
  }

  function HandleSets(ts: Templates, version: nat, domain: nat, data: Bytes, off: nat, end: nat, ipfix: bool): Outcome
    requires end <= |data|
    decreases end - off
  {
    if off + 4 > end || U16(data, off + 2) < 4 then Outcome(ts, [], 0, 0, false)
    else
      var len := U16(data, off + 2);
      var one := HandleSet(ts, version, domain, U16(data, off), Slice(data, off + 4, len - 4), ipfix);
      if one.raised then one
      else Then(one, HandleSets(one.templates, version, domain, data, off + len, end, ipfix))
  }

  function U32(b: Bytes, off: nat): nat
    requires off + 4 <= |b|
  {
    65536 * U16(b, off) + U16(b, off + 2)
  }

  // NetFlow v5 records from the i-th on, as many as the packet holds.
  function V5Calls(data: Bytes, i: nat, count: nat): seq<Call>
    decreases count - i
  {
    var off := 24 + i * 48;
    if i >= count || off + 48 > |data| then []
    else
      [Call(U32(data, off), U32(data, off + 4), U32(data, off + 20), None,
            data[off + 38], U16(data, off + 32), U16(data, off + 34))] + V5Calls(data, i + 1, count)
  }

  // `handle_packet` for everything but sFlow (whose first 32 bits are 5).
  function HandleMessage(ts: Templates, data: Bytes): Outcome {
    var nothing := Outcome(ts, [], 0, 0, false);
    if |data| < 4 then nothing
    else
      var version := U16(data, 0);
      if version == 5 then nothing.(calls := V5Calls(data, 0, U16(data, 2)), records := U16(data, 2))
      else if version == 9 then
        if |data| < 20 then nothing.(raised := true)
        else HandleSets(ts, 9, U32(data, 16), data, 20, |data|, false)
      else if version == 10 then
        if |data| < 16 then nothing.(raised := true)
        else HandleSets(ts, 10, U32(data, 12), data, 16, if U16(data, 2) < |data| then U16(data, 2) else |data|, true)
      else nothing
  }

  // ---- templates under another version, domain or id never matter

  ghost predicate SameFor(a: Templates, b: Templates, version: nat, domain: nat) {
    forall id :: var k := TemplateKey(version, domain, id); (k in a <==> k in b) && (k in a ==> a[k] == b[k])
  }

  lemma {:induction false} TemplateSetFrame(a: Templates, b: Templates, version: nat, domain: nat,
                                            body: Bytes, off: nat, ipfix: bool)
    requires SameFor(a, b, version, domain)
    ensures SameFor(TemplateSet(a, version, domain, body, off, ipfix).0,
                    TemplateSet(b, version, domain, body, off, ipfix).0, version, domain)
    ensures TemplateSet(a, version, domain, body, off, ipfix).1 == TemplateSet(b, version, domain, body, off, ipfix).1
    ensures Elsewhere(a, TemplateSet(a, version, domain, body, off, ipfix).0, version, domain)
    decreases |body| - off
  {
    if off + 4 <= |body| && U16(body, off) >= 256 {
      var read := ReadFields(body, off + 4, U16(body, off + 2), ipfix);
      if read.Some? {
        var key := TemplateKey(version, domain, U16(body, off));
        TemplateSetFrame(a[key := read.value.0], b[key := read.value.0], version, domain, body, read.value.1, ipfix);
      }
    }
  }

  lemma SetFrame(a: Templates, b: Templates, version: nat, domain: nat, id: nat, body: Bytes, ipfix: bool)
    requires SameFor(a, b, version, domain)
    ensures var x, y := HandleSet(a, version, domain, id, body, ipfix), HandleSet(b, version, domain, id, body, ipfix);
            && x.calls == y.calls && x.records == y.records && x.missing == y.missing && x.raised == y.raised
            && SameFor(x.templates, y.templates, version, domain) && Elsewhere(a, x.templates, version, domain)
  {
    hide TemplateSet, DataRecords, CallsOf;
    TemplateSetFrame(a, b, version, domain, body, 0, ipfix);
    assert TemplateKey(version, domain, id) in a <==> TemplateKey(version, domain, id) in b;
  }

  ghost predicate Elsewhere(a: Templates, b: Templates, version: nat, domain: nat) {
    forall k :: k in a && (k.version != version || k.domain != domain) ==> k in b && b[k] == a[k]
  }

  // Two caches that agree on the sender's own templates account the same
  // records, and nobody else's templates change.
  lemma {:induction false} OtherTemplatesNeverMatter(a: Templates, b: Templates, version: nat, domain: nat,
                                                     data: Bytes, off: nat, end: nat, ipfix: bool)
    requires end <= |data| && SameFor(a, b, version, domain)
    ensures var x, y := HandleSets(a, version, domain, data, off, end, ipfix), HandleSets(b, version, domain, data, off, end, ipfix);
            && x.calls == y.calls && x.records == y.records && x.missing == y.missing && x.raised == y.raised
            && SameFor(x.templates, y.templates, version, domain) && Elsewhere(a, x.templates, version, domain)
    decreases end - off
  {
    hide HandleSet, SameFor, Slice, U16;
    if off + 4 <= end && U16(data, off + 2) >= 4 {
      var len := U16(data, off + 2);
      var id, body := U16(data, off), Slice(data, off + 4, len - 4);
      SetFrame(a, b, version, domain, id, body, ipfix);
      var x := HandleSet(a, version, domain, id, body, ipfix);
      if !x.raised {
        var y := HandleSet(b, version, domain, id, body, ipfix);
        OtherTemplatesNeverMatter(x.templates, y.templates, version, domain, data, off + len, end, ipfix);
      }
    }
  }
}
