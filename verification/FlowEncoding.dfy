// The exporter's side of templates and records, and the proof that decoding
// inverts it (RFC 7011 sections 3.3, 3.4.1 and 7).

module FlowEncoding {
  import opened FlowWire
  import opened OctetStrings
  import opened Options

  ghost predicate At(body: Bytes, off: nat, chunk: Bytes) {
    off + |chunk| <= |body| && body[off..off + |chunk|] == chunk
  }

  lemma AtSplit(body: Bytes, off: nat, a: Bytes, b: Bytes)
    requires At(body, off, a + b)
    ensures At(body, off, a) && At(body, off + |a|, b)
  {
    assert body[off..off + |a + b|][..|a|] == a;
    assert body[off..off + |a + b|][|a|..] == b;
  }

  function EncodeU16(n: nat): (b: Bytes)
    requires n < 65536
    ensures |b| == 2
  {
    [n / 256, n % 256]
  }

  lemma U16At(body: Bytes, off: nat, n: nat)
    requires n < 65536 && At(body, off, EncodeU16(n))
    ensures U16(body, off) == n
  {
    assert body[off] == body[off..off + 2][0] && body[off + 1] == body[off..off + 2][1];
  }

  function EncodeU32(n: nat): (b: Bytes)
    requires n < 0x1_0000_0000
    ensures |b| == 4
  {
    EncodeU16(n / 65536) + EncodeU16(n % 65536)
  }

  lemma U32At(body: Bytes, off: nat, n: nat)
    requires n < 0x1_0000_0000 && At(body, off, EncodeU32(n))
    ensures off + 4 <= |body| && U32(body, off) == n
  {
    AtSplit(body, off, EncodeU16(n / 65536), EncodeU16(n % 65536));
    U16At(body, off, n / 65536);
    U16At(body, off + 2, n % 65536);
  }

  // ---- records

  // A field's content; a short variable-length value may still use the long length form.
  datatype Value = Value(bytes: Bytes, longForm: bool)

  ghost predicate Fits(f: Field, v: Value) {
    if f.len == 65535 then |v.bytes| < 65536 else |v.bytes| == f.len
  }

  ghost predicate AllFit(fields: seq<Field>, vals: seq<Value>) {
    |vals| == |fields| && forall i :: 0 <= i < |fields| ==> Fits(fields[i], vals[i])
  }

  function EncodeValue(f: Field, v: Value): Bytes
    requires Fits(f, v)
  {
    if f.len != 65535 then v.bytes
    else if |v.bytes| < 255 && !v.longForm then [|v.bytes|] + v.bytes
    else [255] + EncodeU16(|v.bytes|) + v.bytes
  }

  function EncodeRecord(fields: seq<Field>, vals: seq<Value>): Bytes
    requires AllFit(fields, vals)
  {
    if fields == [] then []
    else EncodeValue(fields[0], vals[0]) + EncodeRecord(fields[1..], vals[1..])
  }

  function EncodeRecords(fields: seq<Field>, records: seq<seq<Value>>): Bytes
    requires forall r :: r in records ==> AllFit(fields, r)
  {
    if records == [] then [] else EncodeRecord(fields, records[0]) + EncodeRecords(fields, records[1..])
  }

  lemma FieldRead(f: Field, v: Value, body: Bytes, off: nat)
    requires Fits(f, v) && At(body, off, EncodeValue(f, v))
    ensures FieldExtent(f, body, off).Some?
    ensures var (at, len) := FieldExtent(f, body, off).value;
            && len == |v.bytes| && at + len == off + |EncodeValue(f, v)|
            && Slice(body, at, len) == v.bytes
  {
    if f.len == VARIABLE {
      if |v.bytes| < 255 && !v.longForm {
        ShortRead(v.bytes, body, off);
      } else {
        LongRead(v.bytes, body, off);
      }
    }
  }

  lemma ShortRead(value: Bytes, body: Bytes, off: nat)
    requires |value| < 255 && At(body, off, [|value|] + value)
    ensures off < |body| && body[off] == |value| && Slice(body, off + 1, |value|) == value
  {
    AtSplit(body, off, [|value|], value);
    assert body[off] == body[off..off + 1][0];
  }

  lemma LongRead(value: Bytes, body: Bytes, off: nat)
    requires |value| < 65536 && At(body, off, [255] + EncodeU16(|value|) + value)
    ensures off + 3 <= |body| && body[off] == 255 && U16(body, off + 1) == |value|
    ensures Slice(body, off + 3, |value|) == value
  {
    hide EncodeU16;
    var len := EncodeU16(|value|);
    assert [255] + len + value == [255] + (len + value);
    AtSplit(body, off, [255], len + value);
    AtSplit(body, off + 1, len, value);
    U16At(body, off + 1, |value|);
    assert body[off] == body[off..off + 1][0];
  }

  // The fields of a record stored one after the other.
  function Fold(fields: seq<Field>, vals: seq<Value>, r: Record): Record
    requires |vals| == |fields|
  {
    if fields == [] then r
    else Fold(fields[1..], vals[1..], Store(r, fields[0].ftype, |vals[0].bytes|, vals[0].bytes))
  }

  lemma {:induction false} RecordRead(fields: seq<Field>, vals: seq<Value>, body: Bytes, off: nat, r: Record)
    requires AllFit(fields, vals) && At(body, off, EncodeRecord(fields, vals))
    ensures ReadRecord(fields, body, off, r) == Some((Fold(fields, vals, r), off + |EncodeRecord(fields, vals)|))
    decreases fields
  {
    hide At, EncodeValue, FieldExtent, Store, Slice, Fits;
    if fields != [] {
      var first, rest := EncodeValue(fields[0], vals[0]), EncodeRecord(fields[1..], vals[1..]);
      AtSplit(body, off, first, rest);
      FieldRead(fields[0], vals[0], body, off);
      RecordRead(fields[1..], vals[1..], body, off + |first|,
                 Store(r, fields[0].ftype, |vals[0].bytes|, vals[0].bytes));
    }
  }

  lemma {:induction false} RecordAtLeastMin(fields: seq<Field>, vals: seq<Value>)
    requires AllFit(fields, vals)
    ensures |EncodeRecord(fields, vals)| >= MinLen(fields)
  {
    if fields != [] {
      RecordAtLeastMin(fields[1..], vals[1..]);
    }
  }

  // ---- what a record says, field by field

  // The content of the first field with that id.
  function ValueOf(fields: seq<Field>, vals: seq<Value>, ftype: nat): Option<Bytes>
    requires |vals| == |fields|
  {
    if fields == [] then None
    else if fields[0].ftype == ftype then Some(vals[0].bytes)
    else ValueOf(fields[1..], vals[1..], ftype)
  }

  ghost predicate Once(fields: seq<Field>, ftype: nat) {
    forall i, j :: 0 <= i < |fields| && 0 <= j < |fields| && fields[i].ftype == fields[j].ftype == ftype ==> i == j
  }

  function NumberOf(fields: seq<Field>, vals: seq<Value>, ftype: nat): nat
    requires |vals| == |fields|
  {
    match ValueOf(fields, vals, ftype)
    case None => 0
    case Some(v) => Uint(v)
  }

  function AddressOf(fields: seq<Field>, vals: seq<Value>, ftype: nat): Option<nat>
    requires |vals| == |fields|
  {
    match ValueOf(fields, vals, ftype)
    case None => None
    case Some(v) => if |v| == 4 then Some(Uint(v)) else None
  }

  function Max(a: nat, b: nat): nat {
    if a > b then a else b
  }

  // The largest octet count among octetDeltaCount (1) and octetTotalCount (85).
  function Octets(fields: seq<Field>, vals: seq<Value>): nat
    requires |vals| == |fields|
  {
    if fields == [] then 0
    else
      Max(if fields[0].ftype == 1 || fields[0].ftype == 85 then Uint(vals[0].bytes) else 0, Octets(fields[1..], vals[1..]))
  }

  function IndexOf(fields: seq<Field>, ftype: nat): (i: nat)
    ensures i <= |fields|
  {
    if fields == [] || fields[0].ftype == ftype then 0 else 1 + IndexOf(fields[1..], ftype)
  }

  // postOctetDeltaCount (23) stands in for it when none before it was non-zero.
  function OctetsOf(fields: seq<Field>, vals: seq<Value>): nat
    requires |vals| == |fields|
  {
    var k := IndexOf(fields, 23);
    if k < |fields| && Octets(fields[..k], vals[..k]) == 0 then
      Max(Octets(fields, vals), Uint(vals[k].bytes))
    else Octets(fields, vals)
  }

  ghost predicate UsedOnce(fields: seq<Field>) {
    Once(fields, 8) && Once(fields, 12) && Once(fields, 226) && Once(fields, 4) && Once(fields, 7) && Once(fields, 11) && Once(fields, 23)
  }

  lemma OnceTail(fields: seq<Field>, ftype: nat)
    requires fields != [] && Once(fields, ftype)
    ensures Once(fields[1..], ftype)
    ensures fields[0].ftype == ftype ==> forall f :: f in fields[1..] ==> f.ftype != ftype
  {
    if fields[0].ftype == ftype {
      forall f | f in fields[1..]
        ensures f.ftype != ftype
      {
        var i :| 0 <= i < |fields[1..]| && fields[1..][i] == f;
        assert fields[i + 1] == f;
      }
    }
    forall i, j | 0 <= i < |fields[1..]| && 0 <= j < |fields[1..]| && fields[1..][i].ftype == fields[1..][j].ftype == ftype
      ensures i == j
    {
      assert fields[i + 1].ftype == fields[j + 1].ftype == ftype;
    }
  }

  lemma {:induction false} NotThere(fields: seq<Field>, vals: seq<Value>, ftype: nat)
    requires |vals| == |fields| && forall f :: f in fields ==> f.ftype != ftype
    ensures ValueOf(fields, vals, ftype) == None && IndexOf(fields, ftype) == |fields|
  {
    if fields != [] {
      NotThere(fields[1..], vals[1..], ftype);
    }
  }

  lemma {:induction false} FoldAddresses(fields: seq<Field>, vals: seq<Value>, r: Record)
    requires |vals| == |fields| && UsedOnce(fields)
    ensures var e := Fold(fields, vals, r);
            && e.src == (var a := AddressOf(fields, vals, 8); if a.Some? then a else r.src)
            && e.dst == (var a := AddressOf(fields, vals, 12); if a.Some? then a else r.dst)
            && e.postNat == (var a := AddressOf(fields, vals, 226); if a.Some? then a else r.postNat)
  {
    if fields != [] {
      var f := fields[0].ftype;
      TailUsedOnce(fields);
      if f in {8, 12, 226} {
        OnceTail(fields, f);
        NotThere(fields[1..], vals[1..], f);
      }
      FoldAddresses(fields[1..], vals[1..], Store(r, f, |vals[0].bytes|, vals[0].bytes));
    }
  }

  lemma TailUsedOnce(fields: seq<Field>)
    requires fields != [] && UsedOnce(fields)
    ensures UsedOnce(fields[1..])
  {
    OnceTail(fields, 8);
    OnceTail(fields, 12);
    OnceTail(fields, 226);
    OnceTail(fields, 4);
    OnceTail(fields, 7);
    OnceTail(fields, 11);
    OnceTail(fields, 23);
  }

  lemma {:induction false} FoldNumbers(fields: seq<Field>, vals: seq<Value>, r: Record)
    requires |vals| == |fields| && UsedOnce(fields)
    ensures var e := Fold(fields, vals, r);
            && e.proto == (if ValueOf(fields, vals, 4).Some? then NumberOf(fields, vals, 4) else r.proto)
            && e.sport == (if ValueOf(fields, vals, 7).Some? then NumberOf(fields, vals, 7) else r.sport)
            && e.dport == (if ValueOf(fields, vals, 11).Some? then NumberOf(fields, vals, 11) else r.dport)
  {
    if fields != [] {
      var f := fields[0].ftype;
      TailUsedOnce(fields);
      if f in {4, 7, 11} {
        OnceTail(fields, f);
        NotThere(fields[1..], vals[1..], f);
      }
      FoldNumbers(fields[1..], vals[1..], Store(r, f, |vals[0].bytes|, vals[0].bytes));
    }
  }

  lemma {:induction false} FoldOctetsWithoutOut(fields: seq<Field>, vals: seq<Value>, r: Record)
    requires |vals| == |fields| && forall f :: f in fields ==> f.ftype != 23
    ensures Fold(fields, vals, r).octets == Max(r.octets, Octets(fields, vals))
  {
    if fields != [] {
      FoldOctetsWithoutOut(fields[1..], vals[1..], Store(r, fields[0].ftype, |vals[0].bytes|, vals[0].bytes));
    }
  }

  lemma {:induction false} FoldOctets(fields: seq<Field>, vals: seq<Value>, r: Record)
    requires |vals| == |fields| && Once(fields, 23)
    ensures var k := IndexOf(fields, 23);
            Fold(fields, vals, r).octets ==
            if k < |fields| && r.octets == 0 && Octets(fields[..k], vals[..k]) == 0 then
              Max(Octets(fields, vals), Uint(vals[k].bytes))
            else Max(r.octets, Octets(fields, vals))
  {
    if fields != [] {
      OnceTail(fields, 23);
      var r' := Store(r, fields[0].ftype, |vals[0].bytes|, vals[0].bytes);
      StoredOctets(r, fields[0].ftype, vals[0].bytes);
      hide Store, Uint, Once;
      if fields[0].ftype == 23 {
        FoldOctetsWithoutOut(fields[1..], vals[1..], r');
      } else {
        FoldOctets(fields[1..], vals[1..], r');
        var k := IndexOf(fields[1..], 23);
        assert fields[..k + 1][1..] == fields[1..][..k] && vals[..k + 1][1..] == vals[1..][..k];
      }
    }
  }

  lemma StoredOctets(r: Record, ftype: nat, value: Bytes)
    ensures Store(r, ftype, |value|, value).octets ==
            if ftype == 1 || ftype == 85 || (ftype == 23 && r.octets == 0) then Max(r.octets, Uint(value)) else r.octets
  {
  }

  // The call of `account` that a record stands for: sourceIPv4Address (8),
  // destinationIPv4Address (12), the octet count, postNATDestinationIPv4Address
  // (226), protocolIdentifier (4) and the transport ports (7 and 11).
  function RecordCall(fields: seq<Field>, vals: seq<Value>): seq<Call>
    requires |vals| == |fields|
  {
    var src, dst := AddressOf(fields, vals, 8), AddressOf(fields, vals, 12);
    if src.Some? && dst.Some? then
      [Call(src.value, dst.value, OctetsOf(fields, vals), AddressOf(fields, vals, 226),
            NumberOf(fields, vals, 4), NumberOf(fields, vals, 7), NumberOf(fields, vals, 11))]
    else []
  }

  lemma FoldIsCall(fields: seq<Field>, vals: seq<Value>)
    requires |vals| == |fields| && UsedOnce(fields)
    ensures CallOf(Fold(fields, vals, EMPTY)) == RecordCall(fields, vals)
  {
    FoldAddresses(fields, vals, EMPTY);
    FoldNumbers(fields, vals, EMPTY);
    FoldOctets(fields, vals, EMPTY);
  }

  // ---- a whole data set

  function RecordCalls(fields: seq<Field>, records: seq<seq<Value>>): seq<Call>
    requires forall r :: r in records ==> |r| == |fields|
  {
    if records == [] then [] else RecordCall(fields, records[0]) + RecordCalls(fields, records[1..])
  }

  // Both addresses are among the fields.
  ghost predicate Addressed(fields: seq<Field>) {
    (exists f :: f in fields && f.ftype == 8) && exists f :: f in fields && f.ftype == 12
  }

  // Addresses are four bytes long.
  ghost predicate FourByteAddresses(fields: seq<Field>, vals: seq<Value>)
    requires |vals| == |fields|
  {
    && (ValueOf(fields, vals, 8).Some? ==> |ValueOf(fields, vals, 8).value| == 4)
    && (ValueOf(fields, vals, 12).Some? ==> |ValueOf(fields, vals, 12).value| == 4)
  }

  lemma {:induction false} ValueOfMember(fields: seq<Field>, vals: seq<Value>, ftype: nat)
    requires AllFit(fields, vals)
    ensures ValueOf(fields, vals, ftype).Some? <==> exists f :: f in fields && f.ftype == ftype
    ensures ValueOf(fields, vals, ftype).Some? && |ValueOf(fields, vals, ftype).value| > 0 ==> MinLen(fields) > 0
  {
    if fields != [] {
      ValueOfMember(fields[1..], vals[1..], ftype);
      assert fields == [fields[0]] + fields[1..];
    }
  }

  lemma OneRecord(fields: seq<Field>, vals: seq<Value>, body: Bytes, off: nat)
    requires UsedOnce(fields) && AllFit(fields, vals) && FourByteAddresses(fields, vals)
    requires Addressed(fields)
    requires At(body, off, EncodeRecord(fields, vals))
    ensures var next := off + |EncodeRecord(fields, vals)|;
            && next > off
            && DataRecords(fields, body, off) == [Decoded(Fold(fields, vals, EMPTY), off, next)] + DataRecords(fields, body, next)
    ensures CallOf(Fold(fields, vals, EMPTY)) == RecordCall(fields, vals)
  {
    hide ReadRecord, MinLen, EncodeRecord, Fold, UsedOnce, ValueOf, RecordCall;
    RecordRead(fields, vals, body, off, EMPTY);
    RecordAtLeastMin(fields, vals);
    ValueOfMember(fields, vals, 8);
    ValueOfMember(fields, vals, 12);
    FoldAddresses(fields, vals, EMPTY);
    FoldIsCall(fields, vals);
  }

  // Any records, then less than a record of padding: one call per record, in order.
  lemma {:induction false} DataSetRoundTrip(fields: seq<Field>, records: seq<seq<Value>>, body: Bytes, off: nat)
    requires UsedOnce(fields)
    requires Addressed(fields)
    requires forall r :: r in records ==> AllFit(fields, r) && FourByteAddresses(fields, r)
    requires At(body, off, EncodeRecords(fields, records))
    requires |body| - off - |EncodeRecords(fields, records)| < MinLen(fields)
    ensures CallsOf(DataRecords(fields, body, off)) == RecordCalls(fields, records)
    ensures |DataRecords(fields, body, off)| == |records|
    decreases records
  {
    hide DataRecords, RecordCall, UsedOnce, FourByteAddresses, EncodeRecord, Fold, CallOf, MinLen, At, CallsOf;
    if records == [] {
      PaddingIsNoRecord(fields, body, off);
    } else {
      var r := records[0];
      assert r in records;
      assert forall v :: v in records[1..] ==> v in records;
      var first, rest := EncodeRecord(fields, r), EncodeRecords(fields, records[1..]);
      AtSplit(body, off, first, rest);
      OneRecord(fields, r, body, off);
      DataSetRoundTrip(fields, records[1..], body, off + |first|);
      CallsCons(Decoded(Fold(fields, r, EMPTY), off, off + |first|), DataRecords(fields, body, off + |first|));
    }
  }

  lemma PaddingIsNoRecord(fields: seq<Field>, body: Bytes, off: nat)
    requires |body| - off < MinLen(fields)
    ensures DataRecords(fields, body, off) == [] && CallsOf(DataRecords(fields, body, off)) == []
  {}

  lemma CallsCons(d: Decoded, rest: seq<Decoded>)
    ensures CallsOf([d] + rest) == CallOf(d.record) + CallsOf(rest)
  {
    assert ([d] + rest)[1..] == rest;
  }

  // Under a template with a field of variable length and no address of fixed length
  // zeros are padding, however many there are.
  lemma ZerosArePadding(fields: seq<Field>, body: Bytes, off: nat)
    requires (exists f :: f in fields && f.len == 65535) && forall i :: off <= i < |body| ==> body[i] == 0
    requires forall f :: f in fields && (f.ftype == 8 || f.ftype == 12) ==> f.len != 4
    ensures DataRecords(fields, body, off) == []
  {
    ReadZeros(fields, body, off, EMPTY);
    hide ReadRecord;
  }

  lemma {:induction false} ReadZeros(fields: seq<Field>, body: Bytes, off: nat, r: Record)
    requires forall i :: off <= i < |body| ==> body[i] == 0
    requires forall f :: f in fields && (f.ftype == 8 || f.ftype == 12) ==> f.len != 4
    requires r.src == None && r.dst == None && r.octets == 0
    ensures var read := ReadRecord(fields, body, off, r);
            read.Some? ==> read.value.0.src == None && read.value.0.dst == None && read.value.0.octets == 0
    decreases fields
  {
    if fields != [] && FieldExtent(fields[0], body, off).Some? {
      var (at, len) := FieldExtent(fields[0], body, off).value;
      var value := Slice(body, at, len);
      assert fields[0] in fields && forall f :: f in fields[1..] ==> f in fields;
      ZerosAreZero(value);
      hide Slice, Uint;
      ReadZeros(fields[1..], body, at + len, Store(r, fields[0].ftype, len, value));
    }
  }

  lemma {:induction false} ZerosAreZero(value: Bytes)
    requires forall i :: 0 <= i < |value| ==> value[i] == 0
    ensures Uint(value) == 0
  {
    if value != [] {
      ZerosAreZero(value[..|value| - 1]);
    }
  }

  // A template without both addresses accounts nothing, whatever the bytes.
  lemma {:induction false} NoAddressNoCalls(fields: seq<Field>, body: Bytes, off: nat)
    requires !Addressed(fields)
    ensures CallsOf(DataRecords(fields, body, off)) == []
    decreases |body| - off
  {
    var ds := DataRecords(fields, body, off);
    if ds != [] {
      MissingStays(fields, body, off, EMPTY);
      assert ds[1..] == DataRecords(fields, body, ds[0].end);
      NoAddressNoCalls(fields, body, ds[0].end);
    }
  }

  lemma {:induction false} MissingStays(fields: seq<Field>, body: Bytes, off: nat, r: Record)
    requires ReadRecord(fields, body, off, r).Some?
    ensures (forall f :: f in fields ==> f.ftype != 8) ==> ReadRecord(fields, body, off, r).value.0.src == r.src
    ensures (forall f :: f in fields ==> f.ftype != 12) ==> ReadRecord(fields, body, off, r).value.0.dst == r.dst
    decreases fields
  {
    hide FieldExtent, Slice, Uint;
    if fields != [] {
      var (at, len) := FieldExtent(fields[0], body, off).value;
      MissingStays(fields[1..], body, at + len, Store(r, fields[0].ftype, len, Slice(body, at, len)));
      assert fields[0] in fields;
    }
  }

  // ---- template sets

  datatype Spec = Known(ftype: nat, len: nat) | Enterprise(ftype: nat, len: nat, number: Bytes)

  ghost predicate ValidSpec(s: Spec, ipfix: bool) {
    && s.len < 65536
    && match s
       case Known(ftype, _) => ftype < (if ipfix then 0x8000 else 65536)
       case Enterprise(ftype, _, number) => ipfix && ftype < 0x8000 && |number| == 4
  }

  ghost predicate ValidSpecs(specs: seq<Spec>, ipfix: bool) {
    |specs| < 65536 && forall s :: s in specs ==> ValidSpec(s, ipfix)
  }

  function EncodeSpec(s: Spec, ipfix: bool): Bytes
    requires ValidSpec(s, ipfix)
  {
    match s
    case Known(ftype, len) => EncodeU16(ftype) + EncodeU16(len)
    case Enterprise(ftype, len, number) => EncodeU16(0x8000 + ftype) + EncodeU16(len) + number
  }

  // What the collector keeps: an enterprise field only for its length.
  function Stored(s: Spec): Field {
    match s
    case Known(ftype, len) => Field(ftype, len)
    case Enterprise(_, len, _) => Field(0x8000, len)
  }

  function StoredAll(specs: seq<Spec>): (r: seq<Field>)
    ensures |r| == |specs| && forall i :: 0 <= i < |specs| ==> r[i] == Stored(specs[i])
  {
    seq(|specs|, i requires 0 <= i < |specs| => Stored(specs[i]))
  }

  function EncodeSpecs(specs: seq<Spec>, ipfix: bool): Bytes
    requires forall s :: s in specs ==> ValidSpec(s, ipfix)
  {
    if specs == [] then [] else EncodeSpec(specs[0], ipfix) + EncodeSpecs(specs[1..], ipfix)
  }

  datatype TemplateRecord = TemplateRecord(id: nat, specs: seq<Spec>)

  ghost predicate ValidTemplates(ts: seq<TemplateRecord>, ipfix: bool) {
    forall t :: t in ts ==> 256 <= t.id < 65536 && ValidSpecs(t.specs, ipfix)
  }

  function EncodeTemplates(ts: seq<TemplateRecord>, ipfix: bool): Bytes
    requires ValidTemplates(ts, ipfix)
  {
    if ts == [] then []
    else
      EncodeU16(ts[0].id) + EncodeU16(|ts[0].specs|) + EncodeSpecs(ts[0].specs, ipfix) + EncodeTemplates(ts[1..], ipfix)
  }

  function Learn(known: Templates, version: nat, domain: nat, ts: seq<TemplateRecord>): Templates
    decreases ts
  {
    if ts == [] then known
    else Learn(known[TemplateKey(version, domain, ts[0].id) := StoredAll(ts[0].specs)], version, domain, ts[1..])
  }

  lemma {:induction false} SpecsRead(specs: seq<Spec>, ipfix: bool, body: Bytes, off: nat)
    requires forall s :: s in specs ==> ValidSpec(s, ipfix)
    requires At(body, off, EncodeSpecs(specs, ipfix))
    ensures ReadFields(body, off, |specs|, ipfix) == Some((StoredAll(specs), off + |EncodeSpecs(specs, ipfix)|))
    decreases specs
  {
    hide U16, At, EncodeU16, EncodeSpec, ValidSpec, Stored;
    if specs == [] {
      assert StoredAll(specs) == [];
    } else {
      var s := specs[0];
      assert s in specs;
      assert forall v :: v in specs[1..] ==> v in specs;
      AtSplit(body, off, EncodeSpec(s, ipfix), EncodeSpecs(specs[1..], ipfix));
      SpecRead(s, ipfix, body, off);
      SpecsRead(specs[1..], ipfix, body, off + |EncodeSpec(s, ipfix)|);
      assert StoredAll(specs) == [Stored(s)] + StoredAll(specs[1..]);
    }
  }

  lemma SpecRead(s: Spec, ipfix: bool, body: Bytes, off: nat)
    requires ValidSpec(s, ipfix) && At(body, off, EncodeSpec(s, ipfix))
    ensures off + 4 <= |body| && U16(body, off + 2) == s.len
    ensures U16(body, off) == (if s.Enterprise? then 0x8000 + s.ftype else s.ftype)
    ensures (ipfix && U16(body, off) >= 0x8000) <==> s.Enterprise?
    ensures |EncodeSpec(s, ipfix)| == if s.Enterprise? then 8 else 4
    ensures Stored(s) == Field(if ipfix && U16(body, off) >= 0x8000 then 0x8000 else U16(body, off), U16(body, off + 2))
  {
    var ftype := EncodeU16(if s.Enterprise? then 0x8000 + s.ftype else s.ftype);
    var tail := if s.Enterprise? then s.number else [];
    assert EncodeSpec(s, ipfix) == ftype + (EncodeU16(s.len) + tail);
    AtSplit(body, off, ftype, EncodeU16(s.len) + tail);
    AtSplit(body, off + 2, EncodeU16(s.len), tail);
    U16At(body, off, if s.Enterprise? then 0x8000 + s.ftype else s.ftype);
    U16At(body, off + 2, s.len);
  }

  // Fewer than four bytes, or a zero where the next template id would stand.
  ghost predicate TemplatePadding(body: Bytes, off: nat) {
    off + 4 > |body| || U16(body, off) == 0
  }

  // A template set teaches exactly its templates, in order, and never raises.
  lemma {:induction false} TemplateSetRoundTrip(known: Templates, version: nat, domain: nat, ts: seq<TemplateRecord>,
                                                ipfix: bool, body: Bytes, off: nat)
    requires ValidTemplates(ts, ipfix)
    requires At(body, off, EncodeTemplates(ts, ipfix))
    requires TemplatePadding(body, off + |EncodeTemplates(ts, ipfix)|)
    ensures TemplateSet(known, version, domain, body, off, ipfix) == (Learn(known, version, domain, ts), false)
    decreases ts
  {
    hide U16, At, EncodeU16, EncodeSpecs, ReadFields, StoredAll;
    if ts == [] {
      PaddingIsNoTemplate(known, version, domain, ipfix, body, off);
    } else {
      var t := ts[0];
      assert t in ts;
      assert forall v :: v in ts[1..] ==> v in ts;
      TemplateRead(t, EncodeTemplates(ts[1..], ipfix), ipfix, body, off);
      TemplateSetRoundTrip(known[TemplateKey(version, domain, t.id) := StoredAll(t.specs)], version, domain,
                           ts[1..], ipfix, body, off + 4 + |EncodeSpecs(t.specs, ipfix)|);
    }
  }

  lemma PaddingIsNoTemplate(known: Templates, version: nat, domain: nat, ipfix: bool, body: Bytes, off: nat)
    requires TemplatePadding(body, off)
    ensures TemplateSet(known, version, domain, body, off, ipfix) == (known, false)
  {}

  lemma AtInside(body: Bytes, off: nat, chunk: Bytes)
    requires At(body, off, chunk)
    ensures off + |chunk| <= |body|
  {}

  lemma TemplateRead(t: TemplateRecord, rest: Bytes, ipfix: bool, body: Bytes, off: nat)
    requires 256 <= t.id < 65536 && ValidSpecs(t.specs, ipfix)
    requires At(body, off, EncodeU16(t.id) + EncodeU16(|t.specs|) + EncodeSpecs(t.specs, ipfix) + rest)
    ensures var specs := EncodeSpecs(t.specs, ipfix);
            && off + 4 <= |body| && U16(body, off) == t.id && U16(body, off + 2) == |t.specs|
            && ReadFields(body, off + 4, |t.specs|, ipfix) == Some((StoredAll(t.specs), off + 4 + |specs|))
            && At(body, off + 4 + |specs|, rest)
  {
    hide U16, At, EncodeU16, EncodeSpecs, ReadFields, StoredAll;
    var specs := EncodeSpecs(t.specs, ipfix);
    AtInside(body, off, EncodeU16(t.id) + EncodeU16(|t.specs|) + specs + rest);
    assert EncodeU16(t.id) + EncodeU16(|t.specs|) + specs + rest == EncodeU16(t.id) + (EncodeU16(|t.specs|) + (specs + rest));
    AtSplit(body, off, EncodeU16(t.id), EncodeU16(|t.specs|) + (specs + rest));
    AtSplit(body, off + 2, EncodeU16(|t.specs|), specs + rest);
    AtSplit(body, off + 4, specs, rest);
    U16At(body, off, t.id);
    U16At(body, off + 2, |t.specs|);
    SpecsRead(t.specs, ipfix, body, off + 4);
  }

  // A template record that is cut short raises, and the templates before it stay.
  lemma {:induction false} CutTemplate(known: Templates, version: nat, domain: nat, ts: seq<TemplateRecord>,
                                       ipfix: bool, body: Bytes, off: nat)
    requires ValidTemplates(ts, ipfix) && At(body, off, EncodeTemplates(ts, ipfix))
    requires var next := off + |EncodeTemplates(ts, ipfix)|;
             next + 4 <= |body| && U16(body, next) >= 256 && next + 4 + 4 * U16(body, next + 2) > |body|
    ensures TemplateSet(known, version, domain, body, off, ipfix) == (Learn(known, version, domain, ts), true)
    decreases ts
  {
    hide U16, At, EncodeU16, EncodeSpecs, ReadFields, StoredAll;
    if ts == [] {
      TooFewFields(body, off + 4, U16(body, off + 2), ipfix);
    } else {
      var t := ts[0];
      assert t in ts;
      assert forall v :: v in ts[1..] ==> v in ts;
      TemplateRead(t, EncodeTemplates(ts[1..], ipfix), ipfix, body, off);
      CutTemplate(known[TemplateKey(version, domain, t.id) := StoredAll(t.specs)], version, domain,
                  ts[1..], ipfix, body, off + 4 + |EncodeSpecs(t.specs, ipfix)|);
    }
  }

  lemma {:induction false} TooFewFields(body: Bytes, off: nat, count: nat, ipfix: bool)
    requires off + 4 * count > |body| && count > 0
    ensures ReadFields(body, off, count, ipfix) == None
    decreases count
  {
    hide U16;
    if off + 4 <= |body| {
      if count > 1 {
        if off + 4 + 4 * (count - 1) > |body| {
          TooFewFields(body, off + 4, count - 1, ipfix);
        }
        TooFewFields(body, off + 8, count - 1, ipfix);
      }
    }
  }

  // A header that is cut short raises; other versions, and next to nothing, do nothing.
  lemma OtherMessages(ts: Templates, data: Bytes)
    ensures 4 <= |data| < 20 && U16(data, 0) == 9 ==> HandleMessage(ts, data) == Outcome(ts, [], 0, 0, true)
    ensures 4 <= |data| < 16 && U16(data, 0) == 10 ==> HandleMessage(ts, data) == Outcome(ts, [], 0, 0, true)
    ensures |data| < 4 || U16(data, 0) !in {5, 9, 10} ==> HandleMessage(ts, data) == Outcome(ts, [], 0, 0, false)
  {}

  // ---- messages

  datatype FlowSet = FlowSet(id: nat, body: Bytes)

  ghost predicate ValidSets(sets: seq<FlowSet>) {
    forall s :: s in sets ==> s.id < 65536 && |s.body| + 4 < 65536
  }

  function EncodeSets(sets: seq<FlowSet>): Bytes
    requires ValidSets(sets)
  {
    if sets == [] then []
    else EncodeU16(sets[0].id) + EncodeU16(|sets[0].body| + 4) + sets[0].body + EncodeSets(sets[1..])
  }

  // The sets handled one after the other, until one raises.
  function HandleEach(ts: Templates, version: nat, domain: nat, sets: seq<FlowSet>, ipfix: bool): Outcome
    decreases sets
  {
    if sets == [] then Outcome(ts, [], 0, 0, false)
    else
      var one := HandleSet(ts, version, domain, sets[0].id, sets[0].body, ipfix);
      if one.raised then one else Then(one, HandleEach(one.templates, version, domain, sets[1..], ipfix))
  }

  lemma SetRead(s: FlowSet, rest: Bytes, data: Bytes, off: nat)
    requires s.id < 65536 && |s.body| + 4 < 65536
    requires At(data, off, EncodeU16(s.id) + EncodeU16(|s.body| + 4) + s.body + rest)
    ensures off + 4 <= |data| && U16(data, off) == s.id && U16(data, off + 2) == |s.body| + 4
    ensures Slice(data, off + 4, |s.body|) == s.body && At(data, off + 4 + |s.body|, rest)
  {
    assert EncodeU16(s.id) + EncodeU16(|s.body| + 4) + s.body + rest ==
           EncodeU16(s.id) + (EncodeU16(|s.body| + 4) + (s.body + rest));
    AtSplit(data, off, EncodeU16(s.id), EncodeU16(|s.body| + 4) + (s.body + rest));
    AtSplit(data, off + 2, EncodeU16(|s.body| + 4), s.body + rest);
    AtSplit(data, off + 4, s.body, rest);
    U16At(data, off, s.id);
    U16At(data, off + 2, |s.body| + 4);
  }

  // Walking a message finds exactly the sets it was made of.
  lemma {:induction false} SetsRoundTrip(ts: Templates, version: nat, domain: nat, sets: seq<FlowSet>,
                                         data: Bytes, off: nat, ipfix: bool)
    requires ValidSets(sets) && At(data, off, EncodeSets(sets))
    ensures off + |EncodeSets(sets)| <= |data|
    ensures HandleSets(ts, version, domain, data, off, off + |EncodeSets(sets)|, ipfix) ==
            HandleEach(ts, version, domain, sets, ipfix)
    decreases sets
  {
    hide U16, EncodeU16, HandleSet, HandleSets, At, Slice, Then;
    AtInside(data, off, EncodeSets(sets));
    if sets == [] {
      NoSets(ts, version, domain, data, off, ipfix);
    } else {
      var s, end := sets[0], off + |EncodeSets(sets)|;
      assert s in sets && forall v :: v in sets[1..] ==> v in sets;
      SetRead(s, EncodeSets(sets[1..]), data, off);
      SetsStep(ts, version, domain, s, data, off, end, ipfix);
      SetsRoundTrip(HandleSet(ts, version, domain, s.id, s.body, ipfix).templates, version, domain, sets[1..],
                    data, off + 4 + |s.body|, ipfix);
    }
  }

  lemma NoSets(ts: Templates, version: nat, domain: nat, data: Bytes, off: nat, ipfix: bool)
    requires off <= |data|
    ensures HandleSets(ts, version, domain, data, off, off, ipfix) == Outcome(ts, [], 0, 0, false)
  {}

  lemma SetsStep(ts: Templates, version: nat, domain: nat, s: FlowSet, data: Bytes, off: nat, end: nat, ipfix: bool)
    requires off + 4 + |s.body| <= end <= |data| && U16(data, off) == s.id && U16(data, off + 2) == |s.body| + 4
    requires Slice(data, off + 4, |s.body|) == s.body
    ensures var one := HandleSet(ts, version, domain, s.id, s.body, ipfix);
            HandleSets(ts, version, domain, data, off, end, ipfix) ==
            if one.raised then one else Then(one, HandleSets(one.templates, version, domain, data, off + 4 + |s.body|, end, ipfix))
  {
    hide HandleSet, Slice, U16, Then;
  }

  lemma LearnOne(ts: Templates, version: nat, domain: nat, t: TemplateRecord)
    ensures Learn(ts, version, domain, [t]) == ts[TemplateKey(version, domain, t.id) := StoredAll(t.specs)]
  {
    assert [t][1..] == [];
  }

  // A template set and a data set for it, handled one after the other: each
  // record is accounted once, in order, with its own values, whatever was cached.
  lemma TemplateThenData(ts: Templates, version: nat, domain: nat, ipfix: bool, first: nat, t: TemplateRecord,
                         records: seq<seq<Value>>, pad: Bytes, tail: Bytes)
    requires (first == 0 || first == 2) && Exportable(t, ipfix, records, tail) && |pad| < 4
    ensures HandleEach(ts, version, domain, TemplateAndData(first, t, ipfix, pad, records, tail), ipfix) ==
            Outcome(Learn(ts, version, domain, [t]), RecordCalls(StoredAll(t.specs), records), |records|, 0, false)
  {
    hide EncodeTemplates, EncodeRecords, RecordCalls, DataRecords, UsedOnce, TemplateSet, CallsOf, FourByteAddresses, MinLen, AllFit;
    var fields := StoredAll(t.specs);
    var sets := TemplateAndData(first, t, ipfix, pad, records, tail);
    TemplateSetRoundTrip(ts, version, domain, [t], ipfix, sets[0].body, 0);
    LearnOne(ts, version, domain, t);
    DataSetRoundTrip(fields, records, sets[1].body, 0);
    assert t in [t];
    TwoSets(ts, version, domain, ipfix, sets, fields);
  }

  // A template the collector accounts, with records and less than one more of padding.
  ghost predicate Exportable(t: TemplateRecord, ipfix: bool, records: seq<seq<Value>>, tail: Bytes) {
    ValidTemplates([t], ipfix) && Recorded(StoredAll(t.specs), records, tail)
  }

  ghost predicate Recorded(fields: seq<Field>, records: seq<seq<Value>>, tail: Bytes) {
    && UsedOnce(fields) && Addressed(fields) && |tail| < MinLen(fields)
    && (forall r :: r in records ==> AllFit(fields, r))
    && (forall r :: r in records ==> |r| == |fields| && FourByteAddresses(fields, r))
  }

  ghost function TemplateAndData(first: nat, t: TemplateRecord, ipfix: bool, pad: Bytes, records: seq<seq<Value>>, tail: Bytes): seq<FlowSet>
    requires Exportable(t, ipfix, records, tail)
  {
    [FlowSet(first, EncodeTemplates([t], ipfix) + pad), FlowSet(t.id, EncodeRecords(StoredAll(t.specs), records) + tail)]
  }

  lemma TwoSets(ts: Templates, version: nat, domain: nat, ipfix: bool, sets: seq<FlowSet>, fields: seq<Field>)
    requires |sets| == 2 && (sets[0].id == 0 || sets[0].id == 2) && sets[1].id >= 256
    requires !TemplateSet(ts, version, domain, sets[0].body, 0, ipfix).1
    requires var learnt := TemplateSet(ts, version, domain, sets[0].body, 0, ipfix).0;
             TemplateKey(version, domain, sets[1].id) in learnt && learnt[TemplateKey(version, domain, sets[1].id)] == fields
    ensures HandleEach(ts, version, domain, sets, ipfix) ==
            Outcome(TemplateSet(ts, version, domain, sets[0].body, 0, ipfix).0, CallsOf(DataRecords(fields, sets[1].body, 0)),
                    |DataRecords(fields, sets[1].body, 0)|, 0, false)
  {
    hide TemplateSet, DataRecords, CallsOf;
    assert sets[1..][0] == sets[1] && sets[1..][1..] == [];
    var one := HandleSet(ts, version, domain, sets[0].id, sets[0].body, ipfix);
    var two := HandleSet(one.templates, version, domain, sets[1].id, sets[1].body, ipfix);
    var end := Outcome(two.templates, [], 0, 0, false);
    assert HandleEach(two.templates, version, domain, [], ipfix) == end;
    assert HandleEach(one.templates, version, domain, sets[1..], ipfix) == Then(two, end);
    assert [] + (two.calls + []) == two.calls;
  }

  // A data set alone, under a template that is known by then.
  lemma DataAlone(ts: Templates, version: nat, domain: nat, ipfix: bool, id: nat, fields: seq<Field>,
                  records: seq<seq<Value>>, tail: Bytes)
    requires id >= 256 && Recorded(fields, records, tail)
    requires TemplateKey(version, domain, id) in ts && ts[TemplateKey(version, domain, id)] == fields
    ensures HandleEach(ts, version, domain, [FlowSet(id, EncodeRecords(fields, records) + tail)], ipfix) ==
            Outcome(ts, RecordCalls(fields, records), |records|, 0, false)
  {
    hide EncodeRecords, RecordCalls, DataRecords, UsedOnce, CallsOf, FourByteAddresses, MinLen, AllFit;
    var data := EncodeRecords(fields, records) + tail;
    DataSetRoundTrip(fields, records, data, 0);
    assert [FlowSet(id, data)][1..] == [];
    assert RecordCalls(fields, records) + [] == RecordCalls(fields, records);
  }

  // ---- IPFIX (section 3.1 of RFC 7011)

  // A header of 16 octets, the observation domain in its last four, then the sets.
  function EncodeIpfix(times: Bytes, domain: nat, sets: seq<FlowSet>): Bytes
    requires |times| == 8 && domain < 0x1_0000_0000 && ValidSets(sets) && 16 + |EncodeSets(sets)| < 65536
  {
    EncodeU16(10) + EncodeU16(16 + |EncodeSets(sets)|) + times + EncodeU32(domain) + EncodeSets(sets)
  }

  lemma IpfixSets(ts: Templates, times: Bytes, domain: nat, sets: seq<FlowSet>)
    requires |times| == 8 && domain < 0x1_0000_0000 && ValidSets(sets) && 16 + |EncodeSets(sets)| < 65536
    ensures HandleMessage(ts, EncodeIpfix(times, domain, sets)) == HandleEach(ts, 10, domain, sets, true)
  {
    hide EncodeU16, EncodeU32, HandleSets, HandleEach, EncodeSets, U32;
    var data := EncodeIpfix(times, domain, sets);
    var body := EncodeSets(sets);
    var len := EncodeU16(16 + |body|);
    assert data[0..2] == EncodeU16(10) && data[2..4] == len && data[12..16] == EncodeU32(domain) && data[16..] == body;
    U16At(data, 0, 10);
    U16At(data, 2, 16 + |body|);
    U32At(data, 12, domain);
    assert At(data, 16, body);
    SetsRoundTrip(ts, 10, domain, sets, data, 16, true);
  }

  // A template set followed by a data set for it.
  lemma IpfixRoundTrip(ts: Templates, times: Bytes, domain: nat, t: TemplateRecord, records: seq<seq<Value>>,
                       pad: Bytes, tail: Bytes)
    requires |times| == 8 && domain < 0x1_0000_0000 && Exportable(t, true, records, tail) && |pad| < 4
    requires var sets := TemplateAndData(2, t, true, pad, records, tail);
             ValidSets(sets) && 16 + |EncodeSets(sets)| < 65536
    ensures HandleMessage(ts, EncodeIpfix(times, domain, TemplateAndData(2, t, true, pad, records, tail))) ==
            Outcome(Learn(ts, 10, domain, [t]), RecordCalls(StoredAll(t.specs), records), |records|, 0, false)
  {
    hide *;
    IpfixSets(ts, times, domain, TemplateAndData(2, t, true, pad, records, tail));
    TemplateThenData(ts, 10, domain, true, 2, t, records, pad, tail);
  }

  // A data set in a later message.
  lemma DataAfterTemplate(ts: Templates, times: Bytes, domain: nat, id: nat, fields: seq<Field>,
                          records: seq<seq<Value>>, tail: Bytes)
    requires |times| == 8 && domain < 0x1_0000_0000 && id >= 256 && Recorded(fields, records, tail)
    requires TemplateKey(10, domain, id) in ts && ts[TemplateKey(10, domain, id)] == fields
    requires var sets := [FlowSet(id, EncodeRecords(fields, records) + tail)];
             ValidSets(sets) && 16 + |EncodeSets(sets)| < 65536
    ensures HandleMessage(ts, EncodeIpfix(times, domain, [FlowSet(id, EncodeRecords(fields, records) + tail)])) ==
            Outcome(ts, RecordCalls(fields, records), |records|, 0, false)
  {
    IpfixSets(ts, times, domain, [FlowSet(id, EncodeRecords(fields, records) + tail)]);
    hide *;
    DataAlone(ts, 10, domain, true, id, fields, records, tail);
  }

  // ---- NetFlow v9 (section 5.1 of RFC 3954)

  // A header of 20 octets, the source id in its last four, then the flow sets.
  // `lead` is the record count, the uptime, the time and the sequence number.
  function EncodeV9(lead: Bytes, source: nat, sets: seq<FlowSet>): Bytes
    requires |lead| == 14 && source < 0x1_0000_0000 && ValidSets(sets)
  {
    EncodeU16(9) + lead + EncodeU32(source) + EncodeSets(sets)
  }

  lemma V9Sets(ts: Templates, lead: Bytes, source: nat, sets: seq<FlowSet>)
    requires |lead| == 14 && source < 0x1_0000_0000 && ValidSets(sets)
    ensures HandleMessage(ts, EncodeV9(lead, source, sets)) == HandleEach(ts, 9, source, sets, false)
  {
    hide EncodeU16, EncodeU32, HandleSets, HandleEach, EncodeSets, U32;
    var data := EncodeV9(lead, source, sets);
    var body := EncodeSets(sets);
    assert data[0..2] == EncodeU16(9) && data[16..20] == EncodeU32(source) && data[20..] == body;
    U16At(data, 0, 9);
    U32At(data, 16, source);
    assert At(data, 20, body);
    SetsRoundTrip(ts, 9, source, sets, data, 20, false);
  }

  // A template flow set followed by a data flow set for it.
  lemma V9RoundTrip(ts: Templates, lead: Bytes, source: nat, t: TemplateRecord, records: seq<seq<Value>>,
                    pad: Bytes, tail: Bytes)
    requires |lead| == 14 && source < 0x1_0000_0000 && Exportable(t, false, records, tail) && |pad| < 4
    requires ValidSets(TemplateAndData(0, t, false, pad, records, tail))
    ensures HandleMessage(ts, EncodeV9(lead, source, TemplateAndData(0, t, false, pad, records, tail))) ==
            Outcome(Learn(ts, 9, source, [t]), RecordCalls(StoredAll(t.specs), records), |records|, 0, false)
  {
    hide *;
    V9Sets(ts, lead, source, TemplateAndData(0, t, false, pad, records, tail));
    TemplateThenData(ts, 9, source, false, 0, t, records, pad, tail);
  }

  // A data flow set in a later packet.
  lemma V9DataAfterTemplate(ts: Templates, lead: Bytes, source: nat, id: nat, fields: seq<Field>,
                            records: seq<seq<Value>>, tail: Bytes)
    requires |lead| == 14 && source < 0x1_0000_0000 && id >= 256 && Recorded(fields, records, tail)
    requires TemplateKey(9, source, id) in ts && ts[TemplateKey(9, source, id)] == fields
    requires ValidSets([FlowSet(id, EncodeRecords(fields, records) + tail)])
    ensures HandleMessage(ts, EncodeV9(lead, source, [FlowSet(id, EncodeRecords(fields, records) + tail)])) ==
            Outcome(ts, RecordCalls(fields, records), |records|, 0, false)
  {
    V9Sets(ts, lead, source, [FlowSet(id, EncodeRecords(fields, records) + tail)]);
    hide *;
    DataAlone(ts, 9, source, false, id, fields, records, tail);
  }

  // A set under an unknown template is only counted; options templates (1 and 3)
  // and ids up to 255 are passed over.
  lemma OtherSets(ts: Templates, lead: Bytes, source: nat, id: nat, body: Bytes)
    requires |lead| == 14 && source < 0x1_0000_0000 && id < 65536 && |body| + 4 < 65536 && id != 0 && id != 2
    requires TemplateKey(9, source, id) !in ts
    ensures HandleMessage(ts, EncodeV9(lead, source, [FlowSet(id, body)])) == Outcome(ts, [], 0, if id < 256 then 0 else 1, false)
  {
    V9Sets(ts, lead, source, [FlowSet(id, body)]);
    hide EncodeV9, HandleMessage, EncodeSets;
    assert [FlowSet(id, body)][1..] == [];
  }

  // ---- NetFlow v5

  // A record of 48 octets; the fields in between are not used.
  datatype V5Record = V5Record(src: nat, dst: nat, hop: Bytes, octets: nat, times: Bytes, sport: nat, dport: nat,
                               flags: Bytes, proto: byte, rest: Bytes)

  ghost predicate ValidV5(r: V5Record) {
    && r.src < 0x1_0000_0000 && r.dst < 0x1_0000_0000 && r.octets < 0x1_0000_0000 && r.sport < 65536 && r.dport < 65536
    && |r.hop| == 12 && |r.times| == 8 && |r.flags| == 2 && |r.rest| == 9
  }

  function EncodeV5Record(r: V5Record): (b: Bytes)
    requires ValidV5(r)
    ensures |b| == 48
  {
    EncodeU32(r.src) + EncodeU32(r.dst) + r.hop + EncodeU32(r.octets) + r.times
    + EncodeU16(r.sport) + EncodeU16(r.dport) + r.flags + [r.proto] + r.rest
  }

  function EncodeV5Records(rs: seq<V5Record>): (b: Bytes)
    requires forall r :: r in rs ==> ValidV5(r)
    ensures |b| == 48 * |rs|
  {
    if rs == [] then [] else EncodeV5Record(rs[0]) + EncodeV5Records(rs[1..])
  }

  function V5Call(r: V5Record): Call {
    Call(r.src, r.dst, r.octets, None, r.proto, r.sport, r.dport)
  }

  lemma V5RecordRead(r: V5Record, data: Bytes, off: nat)
    requires ValidV5(r) && At(data, off, EncodeV5Record(r))
    ensures off + 48 <= |data| && U32(data, off) == r.src && U32(data, off + 4) == r.dst && U32(data, off + 20) == r.octets
    ensures U16(data, off + 32) == r.sport && U16(data, off + 34) == r.dport && data[off + 38] == r.proto
  {
    hide EncodeU16, EncodeU32, U32;
    var b := EncodeV5Record(r);
    assert b[0..4] == EncodeU32(r.src) && b[4..8] == EncodeU32(r.dst) && b[20..24] == EncodeU32(r.octets);
    assert b[32..34] == EncodeU16(r.sport) && b[34..36] == EncodeU16(r.dport) && b[38] == r.proto;
    assert forall i :: 0 <= i < 48 ==> data[off + i] == b[i] by {
      assert data[off..off + 48] == b;
    }
    PartAt(data, off, b, 0, 4);
    PartAt(data, off, b, 4, 8);
    PartAt(data, off, b, 20, 24);
    PartAt(data, off, b, 32, 34);
    PartAt(data, off, b, 34, 36);
    U32At(data, off, r.src);
    U32At(data, off + 4, r.dst);
    U32At(data, off + 20, r.octets);
    U16At(data, off + 32, r.sport);
    U16At(data, off + 34, r.dport);
  }

  lemma PartAt(data: Bytes, off: nat, b: Bytes, from: nat, to: nat)
    requires At(data, off, b) && from <= to <= |b|
    ensures At(data, off + from, b[from..to])
  {
    var whole := data[off..off + |b|];
    assert whole == b && |data[off + from..off + to]| == to - from == |whole[from..to]|;
    assert forall i :: 0 <= i < to - from ==> data[off + from..off + to][i] == whole[from + i] == whole[from..to][i];
    assert data[off + from..off + to] == whole[from..to];
  }

  lemma {:induction false} V5RecordsRead(rs: seq<V5Record>, data: Bytes, i: nat, count: nat)
    requires (forall r :: r in rs ==> ValidV5(r)) && i + |rs| <= count && At(data, 24 + i * 48, EncodeV5Records(rs))
    requires i + |rs| == count || |data| - (24 + (i + |rs|) * 48) < 48
    ensures V5Calls(data, i, count) == seq(|rs|, k requires 0 <= k < |rs| => V5Call(rs[k]))
    decreases rs
  {
    hide EncodeV5Record, U32, U16, At;
    if rs != [] {
      AtSplit(data, 24 + i * 48, EncodeV5Record(rs[0]), EncodeV5Records(rs[1..]));
      V5RecordRead(rs[0], data, 24 + i * 48);
      assert rs[0] in rs && forall r :: r in rs[1..] ==> r in rs;
      V5RecordsRead(rs[1..], data, i + 1, count);
    }
  }

  // A header of 24 octets: version, record count and what is not used.
  function EncodeV5(count: nat, header: Bytes, rs: seq<V5Record>, tail: Bytes): Bytes
    requires count < 65536 && |header| == 20 && forall r :: r in rs ==> ValidV5(r)
  {
    EncodeU16(5) + (EncodeU16(count) + (header + (EncodeV5Records(rs) + tail)))
  }

  lemma V5HeaderRead(count: nat, header: Bytes, rs: seq<V5Record>, tail: Bytes)
    requires count < 65536 && |header| == 20 && forall r :: r in rs ==> ValidV5(r)
    ensures var data := EncodeV5(count, header, rs, tail);
            && |data| == 24 + 48 * |rs| + |tail| && U16(data, 0) == 5 && U16(data, 2) == count && At(data, 24, EncodeV5Records(rs))
  {
    var data := EncodeV5(count, header, rs, tail);
    var body := EncodeV5Records(rs);
    assert At(data, 0, data);
    hide EncodeU16, U16, At, EncodeV5Records;
    AtSplit(data, 0, EncodeU16(5), EncodeU16(count) + (header + (body + tail)));
    AtSplit(data, 2, EncodeU16(count), header + (body + tail));
    AtSplit(data, 4, header, body + tail);
    AtSplit(data, 24, body, tail);
    U16At(data, 0, 5);
    U16At(data, 2, count);
  }

  // A packet of these records is accounted record by record. It may promise more
  // records than it holds, and end in part of one; the statistic counts the promise.
  lemma V5RoundTrip(ts: Templates, count: nat, header: Bytes, rs: seq<V5Record>, tail: Bytes)
    requires count < 65536 && |rs| <= count && |header| == 20 && forall r :: r in rs ==> ValidV5(r)
    requires |rs| == count || |tail| < 48
    ensures HandleMessage(ts, EncodeV5(count, header, rs, tail)) ==
            Outcome(ts, seq(|rs|, k requires 0 <= k < |rs| => V5Call(rs[k])), count, 0, false)
  {
    hide EncodeV5, V5Calls, V5Call, EncodeV5Records;
    V5HeaderRead(count, header, rs, tail);
    V5RecordsRead(rs, EncodeV5(count, header, rs, tail), 0, count);
  }
}
