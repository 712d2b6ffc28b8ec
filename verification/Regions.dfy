/** The reply to GET_SHARED_MEMORY_REGIONS: a header, a count, and that many packed records. */
module Regions {
  import opened Bytes
  import opened Seqs

  const HEADER := 12  // request code, flags and size, each a u32
  const RECORD := 16

  datatype Region = Region(id: byte, padding: seq<byte>, length: nat)

  predicate Ok(r: Region) {
    |r.padding| == 7 && r.length < U64_MOD
  }

  predicate AllOk(rs: seq<Region>) {
    forall i :: 0 <= i < |rs| ==> Ok(rs[i])
  }

  /** The memory of a record. */
  function Record(r: Region): (b: seq<byte>)
    requires Ok(r)
    ensures |b| == RECORD
  {
    [r.id] + r.padding + ToLe(r.length, 8)
  }

  function FromSlice(b: seq<byte>): Region
    requires |b| == RECORD
  {
    Region(b[0], b[1..8], FromLe(b[8..]))
  }

  lemma Widths()
    ensures Pow256(4) == U32_MOD && Pow256(8) == U64_MOD
  {
    assert Pow256(4) == U32_MOD;
    assert Pow256(8) == 256 * 256 * 256 * 256 * Pow256(4);
  }

  /** Where a record's fields are. */
  lemma RecordBytes(r: Region)
    requires Ok(r)
    ensures var b := Record(r); var low, high := Octets(r.length), Octets(r.length / U32_MOD);
            && b[0] == r.id && b[1..8] == r.padding
            && b[8..] == [low[3], low[2], low[1], low[0], high[3], high[2], high[1], high[0]]
  {
    ToLe8(r.length);
    var b := Record(r);
    assert b[1..8] == r.padding && b[8..] == ToLe(r.length, 8);
  }

  lemma FromRecord(r: Region)
    requires Ok(r)
    ensures FromSlice(Record(r)) == r
  {
    Widths();
    LeRoundTrip(r.length, 8);
    var b := Record(r);
    assert b[1..8] == r.padding && b[8..] == ToLe(r.length, 8);
  }

  lemma ToRecord(b: seq<byte>)
    requires |b| == RECORD
    ensures Ok(FromSlice(b)) && Record(FromSlice(b)) == b
  {
    Widths();
    LeRoundTripBack(b[8..]);
    assert b == [b[0]] + b[1..8] + b[8..];
  }

  function Payload(rs: seq<Region>): (b: seq<byte>)
    requires AllOk(rs)
    ensures |b| == RECORD * |rs|
  {
    if rs == [] then [] else Payload(rs[..|rs| - 1]) + Record(rs[|rs| - 1])
  }

  lemma LastRecord(rs: seq<Region>)
    requires AllOk(rs) && rs != []
    ensures var n := |rs| - 1;
            && Payload(rs[..n]) == Payload(rs)[..RECORD * n]
            && FromSlice(Payload(rs)[RECORD * n..]) == rs[n]
  {
    var n := |rs| - 1;
    assert Payload(rs)[RECORD * n..] == Record(rs[n]);
    FromRecord(rs[n]);
  }

  lemma {:induction false} PayloadInjective(rs: seq<Region>, ts: seq<Region>)
    requires AllOk(rs) && AllOk(ts) && Payload(rs) == Payload(ts)
    ensures rs == ts
  {
    assert |rs| == |ts|;
    if rs != [] {
      var n := |rs| - 1;
      LastRecord(rs);
      LastRecord(ts);
      PayloadInjective(rs[..n], ts[..n]);
      assert rs == rs[..n] + [rs[n]] && ts == ts[..n] + [ts[n]];
    }
  }

  /** A reply on the wire. The header's size is a u32. */
  function Message(code: nat, flags: nat, count: nat, payload: seq<byte>): seq<byte> {
    ToLe(code, 4) + ToLe(flags, 4) + ToLe((8 + |payload|) % U32_MOD, 4) + ToLe(count, 8) + payload
  }

  const REPLY := 5  // version 1, reply

  /** Where a message's fields are, each with its least significant byte first. */
  lemma MessageBytes(code: nat, flags: nat, count: nat, payload: seq<byte>)
    ensures var m := Message(code, flags, count, payload);
            var c, f, s := Octets(code), Octets(flags), Octets((8 + |payload|) % U32_MOD);
            var low, high := Octets(count), Octets(count / U32_MOD);
            && |m| == HEADER + 8 + |payload|
            && m[..4] == [c[3], c[2], c[1], c[0]] && m[4..8] == [f[3], f[2], f[1], f[0]]
            && m[8..12] == [s[3], s[2], s[1], s[0]]
            && m[12..20] == [low[3], low[2], low[1], low[0], high[3], high[2], high[1], high[0]]
            && m[20..] == payload
  {
    var size := (8 + |payload|) % U32_MOD;
    ToLe4(code);
    ToLe4(flags);
    ToLe4(size);
    ToLe8(count);
    Pieces(ToLe(code, 4), ToLe(flags, 4), ToLe(size, 4), ToLe(count, 8), payload);
  }

  /** The backend's side. */
  method SendRegions(code: nat, regions: seq<Region>) returns (msg: seq<byte>)
    requires AllOk(regions)
    ensures msg == Message(code, REPLY, |regions|, Payload(regions))
  {
    var buf: seq<byte> := [];
    for i := 0 to |regions|
      invariant buf == Payload(regions[..i])
    {
      buf := buf + Record(regions[i]);
      assert regions[..i + 1][..i] == regions[..i];
    }
    assert regions[..|regions|] == regions;
    msg := Message(code, REPLY, |regions|, buf);
  }

  datatype Outcome = Regions(list: seq<Region>) | Partial | Invalid | Abort

  lemma OneMore(list: seq<Region>, buf: seq<byte>, offset: nat)
    requires AllOk(list) && offset + RECORD <= |buf| && Payload(list) == buf[..offset]
    ensures var more := list + [FromSlice(buf[offset..offset + RECORD])];
            AllOk(more) && Payload(more) == buf[..offset + RECORD]
  {
    var slice := buf[offset..offset + RECORD];
    var more := list + [FromSlice(slice)];
    ToRecord(slice);
    assert more[..|list|] == list;
    assert buf[..offset + RECORD] == buf[..offset] + slice;
  }

  /** The decoding loop. The product with the record size is taken in a usize, so that a count of
      2^60 or more can pass the test; the loop then runs off the payload and the program aborts. */
  method DecodeRegions(count: nat, buf: seq<byte>) returns (r: Outcome)
    requires count < U64_MOD && |buf| < U64_MOD
    ensures r.Regions? <==> |buf| == RECORD * count
    ensures r.Regions? ==> |r.list| == count && AllOk(r.list) && Payload(r.list) == buf
    ensures r.Invalid? <==> |buf| != RECORD * count % U64_MOD
    ensures r.Abort? ==> count >= U64_MOD / RECORD
    ensures !r.Partial?
  {
    if |buf| != count * RECORD % U64_MOD { return Invalid; }
    var list: seq<Region> := [];
    var offset := 0;
    for i := 0 to count
      invariant offset == RECORD * i <= |buf|
      invariant |list| == i && AllOk(list) && Payload(list) == buf[..offset]
    {
      if offset + RECORD > |buf| { return Abort; }
      OneMore(list, buf, offset);
      list := list + [FromSlice(buf[offset..offset + RECORD])];
      offset := offset + RECORD;
    }
    r := Regions(list);
    assert buf[..offset] == buf;
  }

  /** Such a count, with nothing in the payload. */
  method DecodeHugeCount() returns (r: Outcome)
    ensures r.Abort?
  {
    r := DecodeRegions(0x1000_0000_0000_0000, []);
  }

  function Flags(stream: seq<byte>): nat
    requires |stream| >= HEADER
  {
    FromLe(stream[4..8])
  }

  function Size(stream: seq<byte>): nat
    requires |stream| >= HEADER
  {
    FromLe(stream[8..HEADER])
  }

  /** The header's own test: version 1, no unknown flag, and a size of at most `limit`, which is
      the library's to choose. */
  predicate HeaderValid(stream: seq<byte>, limit: nat)
    requires |stream| >= HEADER
  {
    Flags(stream) % 4 == 1 && Flags(stream) < 16 && Size(stream) <= limit
  }

  predicate IsReplyFor(stream: seq<byte>, code: nat)
    requires |stream| >= HEADER
  {
    Flags(stream) / 4 % 2 == 1 && FromLe(stream[..4]) == code
  }

  /** The two tests, in bytes: four flag bits of which the first two are the version, 1, and the third
      marks a reply; a size and a code with their least significant bytes first. */
  lemma HeaderMeans(stream: seq<byte>, limit: nat, code: nat)
    requires |stream| >= HEADER && code < U32_MOD
    ensures var b := stream;
            && (HeaderValid(b, limit) <==>
                  && b[4] < 16 && b[4] % 4 == 1 && b[5] == b[6] == b[7] == 0
                  && b[8] as int + 0x100 * b[9] as int + 0x1_0000 * b[10] as int + 0x100_0000 * b[11] as int <= limit)
            && (HeaderValid(b, limit) ==>
                  (IsReplyFor(b, code) <==>
                     && b[4] / 4 % 2 == 1
                     && [b[3], b[2], b[1], b[0]] == Octets(code)))
  {
    FromLe4(stream[..4]);
    FromLe4(stream[4..8]);
    FromLe4(stream[8..12]);
    CodeBytes(stream[..4], code);
  }

  lemma CodeBytes(b: seq<byte>, code: nat)
    requires |b| == 4 && code < U32_MOD
    ensures FromLe(b) == code <==> [b[3], b[2], b[1], b[0]] == Octets(code)
  {
    Widths();
    LeRoundTrip(code, 4);
    LeRoundTripBack(b);
    ToLe4(code);
    Turned(b, Octets(code));
  }

  lemma Turned<T>(a: seq<T>, b: seq<T>)
    requires |a| == |b| == 4
    ensures a == [b[3], b[2], b[1], b[0]] <==> [a[3], a[2], a[1], a[0]] == b
  {
  }

  /** A whole message with a valid header is there. */
  predicate Complete(stream: seq<byte>, limit: nat) {
    && |stream| >= HEADER && HeaderValid(stream, limit)
    && Size(stream) >= 8 && |stream| >= HEADER + Size(stream)
  }

  /** recv_payload_into_buf and get_shared_memory_regions: the header first, then as many bytes
      as it announces. `files`: descriptors came with the message. */
  method GetRegions(stream: seq<byte>, code: nat, limit: nat, files: bool) returns (r: Outcome, rest: seq<byte>)
    ensures r.Partial? <==>
            || |stream| < HEADER
            || (HeaderValid(stream, limit) && Size(stream) >= 8 && |stream| < HEADER + Size(stream))
    ensures Complete(stream, limit) ==> rest == stream[HEADER + Size(stream)..]
    ensures r.Regions? <==>
            && Complete(stream, limit) && IsReplyFor(stream, code) && !files
            && Size(stream) - 8 == RECORD * FromLe(stream[HEADER..HEADER + 8])
    ensures r.Regions? ==> AllOk(r.list) && Payload(r.list) == stream[HEADER + 8..HEADER + Size(stream)]
    ensures r.Abort? <==>
            && |stream| >= HEADER && HeaderValid(stream, limit)
            && (|| Size(stream) < 8
                || (&& Complete(stream, limit) && IsReplyFor(stream, code) && !files
                    && var needed := RECORD * FromLe(stream[HEADER..HEADER + 8]);
                       Size(stream) - 8 != needed && Size(stream) - 8 == needed % U64_MOD))
  {
    if |stream| < HEADER { return Partial, []; }
    if !HeaderValid(stream, limit) { return Invalid, stream[HEADER..]; }
    var size := Size(stream);
    if size < 8 { return Abort, stream[HEADER..]; }  // the subtraction underflows
    if |stream| - HEADER < size { return Partial, []; }
    var count := FromLe(stream[HEADER..HEADER + 8]);
    var buf := stream[HEADER + 8..HEADER + size];
    rest := stream[HEADER + size..];
    if !IsReplyFor(stream, code) || files { return Invalid, rest; }
    Widths();
    LeRoundTripBack(stream[8..HEADER]);
    LeRoundTripBack(stream[HEADER..HEADER + 8]);
    r := DecodeRegions(count, buf);
  }

  lemma Fields(code: nat, count: nat, payload: seq<byte>, tail: seq<byte>)
    requires code < U32_MOD && count < U64_MOD
    ensures var s := Message(code, REPLY, count, payload) + tail;
            && IsReplyFor(s, code) && Flags(s) == REPLY
            && Size(s) == (8 + |payload|) % U32_MOD
            && FromLe(s[HEADER..HEADER + 8]) == count
            && s[HEADER + 8..] == payload + tail
  {
    Widths();
    var a, b, c, d := ToLe(code, 4), ToLe(REPLY, 4), ToLe((8 + |payload|) % U32_MOD, 4), ToLe(count, 8);
    LeRoundTrip(code, 4);
    LeRoundTrip(REPLY, 4);
    LeRoundTrip((8 + |payload|) % U32_MOD, 4);
    LeRoundTrip(count, 8);
    Pieces(a, b, c, d, payload + tail);
    Regroup(a + b + c + d, payload, tail);
  }

  lemma Pieces<T>(a: seq<T>, b: seq<T>, c: seq<T>, d: seq<T>, e: seq<T>)
    requires |a| == |b| == |c| == 4 && |d| == 8
    ensures var s := a + b + c + d + e;
            s[..4] == a && s[4..8] == b && s[8..12] == c && s[12..20] == d && s[20..] == e
  {
  }

  lemma Framed(code: nat, count: nat, payload: seq<byte>, tail: seq<byte>, limit: nat)
    requires code < U32_MOD && count < U64_MOD && 8 + |payload| < U32_MOD && 8 + |payload| <= limit
    ensures var s := Message(code, REPLY, count, payload) + tail;
            && Complete(s, limit) && Size(s) == 8 + |payload|
            && s[HEADER + 8..HEADER + Size(s)] == payload && s[HEADER + Size(s)..] == tail
  {
    Fields(code, count, payload, tail);
    var s := Message(code, REPLY, count, payload) + tail;
    assert s[HEADER + 8..][..|payload|] == payload && s[HEADER + 8..][|payload|..] == tail;
  }

  /** Region lists survive the transfer, whatever follows them on the socket, exactly when their
      size fits the header's u32 and its limit; a longer list is refused, never misread. */
  method Transfer(code: nat, regions: seq<Region>, tail: seq<byte>, limit: nat) returns (r: Outcome, rest: seq<byte>)
    requires code < U32_MOD && |regions| < U64_MOD && AllOk(regions)
    ensures r.Regions? <==> 8 + RECORD * |regions| < U32_MOD && 8 + RECORD * |regions| <= limit
    ensures r.Regions? ==> r.list == regions && rest == tail
  {
    var msg := SendRegions(code, regions);
    ghost var payload := Payload(regions);
    Fields(code, |regions|, payload, tail);
    r, rest := GetRegions(msg + tail, code, limit, false);
    if 8 + |payload| < U32_MOD && 8 + |payload| <= limit {
      Framed(code, |regions|, payload, tail, limit);
      PayloadInjective(r.list, regions);
    }
  }
}
