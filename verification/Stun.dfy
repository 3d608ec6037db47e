/** STUN binding responses: what the server builds (section 15.2 of RFC 5389) and what the client reads
    (signal-server/main.go:416-447, stun/stun.go:60-173). */
module Stun {
  import opened Options
  import opened RelayTypes
  import opened Words

  const COOKIE: nat := 0x2112A442
  const HEADER_SIZE: nat := 20
  const RESPONSE: nat := 0x0101
  const XOR_MAPPED: nat := 0x0020
  const MAPPED: nat := 0x0001

  /** `ip` has 4 or 16 octets. */
  datatype Addr = Addr(ip: Bytes, port: nat)

  datatype Parsed = Found(addr: Addr) | Invalid | NoAddress

  // ---------------------------------------------------------------- one address attribute

  /** The octets of the magic cookie and the transaction id. */
  function Key(txn: Bytes): Bytes { [0x21, 0x12, 0xA4, 0x42] + txn }

  function XorBytes(a: Bytes, b: Bytes): (c: Bytes)
    requires |a| <= |b|
    ensures |c| == |a|
  {
    seq(|a|, i requires 0 <= i < |a| => XorByte(a[i], b[i]))
  }

  /** `byte(xorIP ^ stunMagicCookie>>k)`: the shift binds tighter, so it is the cookie that is shifted. */
  function WrittenOctet(xorIP: nat, unit: nat): Byte
    requires unit > 0
  {
    Xor(xorIP, COOKIE / unit, 32) % 256
  }

  /** The value of an XOR-MAPPED-ADDRESS attribute, as parseXORMappedAddr reads it. */
  function XorMapped(v: Bytes, txn: Bytes): Option<Addr>
    requires |txn| == 12
  {
    if |v| < 4 then None
    else
      var port := Xor(Un16(v[2..4]), COOKIE / 0x1_0000, 16);
      if v[0] == 1 then
        if |v| < 8 then None
        else
          var xorIP := Un32(v[4..8]);
          Some(Addr([WrittenOctet(xorIP, 0x100_0000), WrittenOctet(xorIP, 0x1_0000), WrittenOctet(xorIP, 256),
                     WrittenOctet(xorIP, 1)], port))
      else if v[0] == 2 then
        if |v| < 20 then None else Some(Addr(XorBytes(v[4..20], Key(txn)), port))
      else None
  }

  method ParseXORMappedAddr(v: Bytes, txn: Bytes) returns (r: Option<Addr>)
    requires |txn| == 12
    ensures r == XorMapped(v, txn)
  {
    if |v| < 4 { return None; }
    var family := v[0];
    var port := Xor(Un16(v[2..4]), COOKIE / 0x1_0000, 16);
    if family == 1 {
      if |v| < 8 { return None; }
      var xorIP := Un32(v[4..8]);
      return Some(Addr([WrittenOctet(xorIP, 0x100_0000), WrittenOctet(xorIP, 0x1_0000), WrittenOctet(xorIP, 256),
                        WrittenOctet(xorIP, 1)], port));
    } else if family == 2 {
      if |v| < 20 { return None; }
      var ip := new Byte[16];
      var xorKey := Key(txn);
      for i := 0 to 16
        invariant forall k :: 0 <= k < i ==> ip[k] == XorByte(v[4 + k], xorKey[k])
      {
        ip[i] := XorByte(v[4 + i], xorKey[i]);
      }
      assert ip[..] == XorBytes(v[4..20], Key(txn));
      return Some(Addr(ip[..], port));
    } else {
      return None;
    }
  }

  /** The value of a MAPPED-ADDRESS attribute. */
  function Mapped(v: Bytes): Option<Addr> {
    if |v| < 4 then None
    else if v[0] == 1 then if |v| < 8 then None else Some(Addr(v[4..8], Un16(v[2..4])))
    else if v[0] == 2 then if |v| < 20 then None else Some(Addr(v[4..20], Un16(v[2..4])))
    else None
  }

  // ---------------------------------------------------------------- the list of attributes

  datatype Attr = Attr(kind: nat, value: Bytes)

  function Padded(n: nat): nat { if n % 4 != 0 then n + 4 - n % 4 else n }

  /** The attributes in `d`, up to the first that does not fit. */
  function Attrs(d: Bytes): seq<Attr>
    decreases |d|
  {
    if |d| < 4 then []
    else
      var n := Un16(d[2..4]);
      if 4 + n > |d| then []
      else [Attr(Un16(d[..2]), d[4..4 + n])] + if 4 + Padded(n) <= |d| then Attrs(d[4 + Padded(n)..]) else []
  }

  predicate Malformed(a: Attr, txn: Bytes)
    requires |txn| == 12
  {
    a.kind == XOR_MAPPED && XorMapped(a.value, txn).None?
  }

  /** The last XOR-MAPPED-ADDRESS. */
  function LastXor(attrs: seq<Attr>, txn: Bytes): Option<Addr>
    requires |txn| == 12
  {
    if attrs == [] then None
    else
      var a, before := attrs[|attrs| - 1], attrs[..|attrs| - 1];
      if a.kind == XOR_MAPPED then XorMapped(a.value, txn) else LastXor(before, txn)
  }

  /** The first MAPPED-ADDRESS that can be decoded. */
  function FirstMapped(attrs: seq<Attr>): Option<Addr> {
    if attrs == [] then None
    else if attrs[0].kind == MAPPED && Mapped(attrs[0].value).Some? then Mapped(attrs[0].value)
    else FirstMapped(attrs[1..])
  }

  /** What a list of attributes says: a malformed XOR-MAPPED-ADDRESS spoils it; otherwise the last one wins,
      and without one the first MAPPED-ADDRESS does. */
  function Selected(attrs: seq<Attr>, txn: Bytes): Parsed
    requires |txn| == 12
  {
    if exists i :: 0 <= i < |attrs| && Malformed(attrs[i], txn) then Invalid
    else if LastXor(attrs, txn).Some? then Found(LastXor(attrs, txn).value)
    else if FirstMapped(attrs).Some? then Found(FirstMapped(attrs).value)
    else NoAddress
  }

  lemma {:induction false} FirstMappedGrows(attrs: seq<Attr>, a: Attr)
    ensures FirstMapped(attrs + [a]) ==
            if FirstMapped(attrs).Some? then FirstMapped(attrs)
            else if a.kind == MAPPED then Mapped(a.value) else None
  {
    if attrs == [] {
      assert [a][1..] == [];
    } else {
      assert (attrs + [a])[1..] == attrs[1..] + [a];
      FirstMappedGrows(attrs[1..], a);
    }
  }

  /** One more attribute, seen as the loop sees it. */
  lemma SelectedGrows(attrs: seq<Attr>, a: Attr, txn: Bytes)
    requires |txn| == 12 && Selected(attrs, txn) != Invalid
    ensures Selected(attrs + [a], txn) ==
            if a.kind == XOR_MAPPED then
              (if XorMapped(a.value, txn).None? then Invalid else Found(XorMapped(a.value, txn).value))
            else if a.kind == MAPPED && Selected(attrs, txn).NoAddress? && Mapped(a.value).Some? then
              Found(Mapped(a.value).value)
            else Selected(attrs, txn)
  {
    FirstMappedGrows(attrs, a);
    LastXorGrows(attrs, a, txn);
    MalformedGrows(attrs, a, txn);
    hide XorMapped, Mapped, FirstMapped, LastXor;
  }

  lemma LastXorGrows(attrs: seq<Attr>, a: Attr, txn: Bytes)
    requires |txn| == 12
    ensures LastXor(attrs + [a], txn) == if a.kind == XOR_MAPPED then XorMapped(a.value, txn) else LastXor(attrs, txn)
  {
    assert (attrs + [a])[..|attrs|] == attrs;
  }

  lemma MalformedGrows(attrs: seq<Attr>, a: Attr, txn: Bytes)
    requires |txn| == 12
    ensures (exists i :: 0 <= i < |attrs + [a]| && Malformed((attrs + [a])[i], txn))
            <==> Malformed(a, txn) || exists i :: 0 <= i < |attrs| && Malformed(attrs[i], txn)
  {
    hide Malformed;
    var more := attrs + [a];
    assert more[|attrs|] == a;
    assert forall i :: 0 <= i < |attrs| ==> more[i] == attrs[i];
  }

  /** Once an attribute is malformed, what follows does not matter. */
  lemma SpoiltForGood(attrs: seq<Attr>, rest: seq<Attr>, txn: Bytes)
    requires |txn| == 12 && Selected(attrs, txn) == Invalid
    ensures Selected(attrs + rest, txn) == Invalid
  {
    var i :| 0 <= i < |attrs| && Malformed(attrs[i], txn);
    assert (attrs + rest)[i] == attrs[i];
  }

  // ---------------------------------------------------------------- the whole response

  /** `uint16(len(data))-stunHeaderSize`, in 16-bit arithmetic. */
  function BodyLength(size: nat): nat { (size + 0x1_0000 - HEADER_SIZE) % 0x1_0000 }

  function Response(data: Bytes, txn: Bytes): Parsed
    requires |txn| == 12
  {
    if |data| < HEADER_SIZE || Un16(data[0..2]) != RESPONSE || BodyLength(|data|) < Un16(data[2..4])
       || Un32(data[4..8]) != COOKIE then Invalid
    else Selected(Attrs(data[HEADER_SIZE..]), txn)
  }

  /** The attribute at `offset`, and where the next one starts. */
  lemma AttrAt(data: Bytes, offset: nat)
    requires offset + 4 <= |data|
    ensures var n := Un16(data[offset + 2..offset + 4]);
            Attrs(data[offset..]) ==
            if offset + 4 + n > |data| then []
            else [Attr(Un16(data[offset..offset + 2]), data[offset + 4..offset + 4 + n])]
                 + if offset + 4 + Padded(n) <= |data| then Attrs(data[offset + 4 + Padded(n)..]) else []
  {
    hide Un16;
    var d := data[offset..];
    var n := Un16(data[offset + 2..offset + 4]);
    assert d[..2] == data[offset..offset + 2] && d[2..4] == data[offset + 2..offset + 4];
    if offset + 4 + n <= |data| {
      assert d[4..4 + n] == data[offset + 4..offset + 4 + n];
      if offset + 4 + Padded(n) <= |data| {
        assert d[4 + Padded(n)..] == data[offset + 4 + Padded(n)..];
      }
    }
  }

  /** The walk stands at `offset`, has passed the attributes `seen`, and would return `mapped` now. */
  ghost predicate Walked(data: Bytes, txn: Bytes, offset: nat, seen: seq<Attr>, mapped: Option<Addr>)
    requires |txn| == 12 && |data| >= HEADER_SIZE
  {
    && offset >= HEADER_SIZE
    && Attrs(data[HEADER_SIZE..]) == seen + (if offset <= |data| then Attrs(data[offset..]) else [])
    && Selected(seen, txn) == if mapped.Some? then Found(mapped.value) else NoAddress
  }

  /** What the loop body does with the attribute it looks at. */
  function Noted(a: Attr, txn: Bytes, mapped: Option<Addr>): Option<Addr>
    requires |txn| == 12
  {
    if a.kind == XOR_MAPPED then XorMapped(a.value, txn)
    else if a.kind == MAPPED && mapped.None? && Mapped(a.value).Some? then Mapped(a.value)
    else mapped
  }

  lemma WalksOn(data: Bytes, txn: Bytes, offset: nat, seen: seq<Attr>, mapped: Option<Addr>)
    requires |txn| == 12 && |data| >= HEADER_SIZE && Walked(data, txn, offset, seen, mapped) && offset + 4 <= |data|
    ensures var n := Un16(data[offset + 2..offset + 4]);
            if offset + 4 + n > |data| then Attrs(data[HEADER_SIZE..]) == seen
            else
              var a := Attr(Un16(data[offset..offset + 2]), data[offset + 4..offset + 4 + n]);
              if Malformed(a, txn) then Selected(Attrs(data[HEADER_SIZE..]), txn) == Invalid
              else Walked(data, txn, offset + 4 + Padded(n), seen + [a], Noted(a, txn, mapped))
  {
    hide Attrs, Selected, Un16, Noted, Malformed;
    var n := Un16(data[offset + 2..offset + 4]);
    AttrAt(data, offset);
    if offset + 4 + n <= |data| {
      var a := Attr(Un16(data[offset..offset + 2]), data[offset + 4..offset + 4 + n]);
      var rest := if offset + 4 + Padded(n) <= |data| then Attrs(data[offset + 4 + Padded(n)..]) else [];
      Passes(Attrs(data[HEADER_SIZE..]), txn, seen, mapped, a, rest);
    } else {
      assert seen + [] == seen;
    }
  }

  lemma Passes(all: seq<Attr>, txn: Bytes, seen: seq<Attr>, mapped: Option<Addr>, a: Attr, rest: seq<Attr>)
    requires |txn| == 12 && all == seen + ([a] + rest)
    requires Selected(seen, txn) == if mapped.Some? then Found(mapped.value) else NoAddress
    ensures all == seen + [a] + rest
    ensures if Malformed(a, txn) then Selected(all, txn) == Invalid
            else
              var m := Noted(a, txn, mapped);
              Selected(seen + [a], txn) == if m.Some? then Found(m.value) else NoAddress
  {
    assert all == seen + [a] + rest;
    SelectedGrows(seen, a, txn);
    hide Selected, XorMapped, Mapped;
    if Malformed(a, txn) { SpoiltForGood(seen + [a], rest, txn); }
  }

  /** On any bytes at all: every slice is in range, the offset grows, and the outcome is the selection. */
  method ParseBindingResponse(data: Bytes, txn: Bytes) returns (r: Parsed)
    requires |txn| == 12
    ensures r == Response(data, txn)
  {
    hide Attrs, Selected, XorMapped, Mapped, Un16, Un32, BodyLength, Walked;
    if |data| < HEADER_SIZE { return Invalid; }
    var msgType := Un16(data[0..2]);
    if msgType != RESPONSE { return Invalid; }
    var msgLen := Un16(data[2..4]);
    if BodyLength(|data|) < msgLen { return Invalid; }
    var cookie := Un32(data[4..8]);
    if cookie != COOKIE { return Invalid; }

    var mappedAddr: Option<Addr> := None;
    var offset := HEADER_SIZE;
    ghost var seen: seq<Attr> := [];
    WalkStarts(data, txn);
    while offset + 4 <= |data|
      invariant Walked(data, txn, offset, seen, mappedAddr)
      decreases |data| - offset
    {
      var attrType := Un16(data[offset..offset + 2]);
      var attrLen := Un16(data[offset + 2..offset + 4]);
      WalksOn(data, txn, offset, seen, mappedAddr);
      if offset + 4 + attrLen > |data| { break; }
      var attrValue := data[offset + 4..offset + 4 + attrLen];
      seen := seen + [Attr(attrType, attrValue)];
      if attrType == XOR_MAPPED {
        var addr := ParseXORMappedAddr(attrValue, txn);
        if addr.None? { return Invalid; }
        mappedAddr := addr;
      } else if attrType == MAPPED && mappedAddr.None? {
        var addr := Mapped(attrValue);
        if addr.Some? { mappedAddr := addr; }
      }
      var paddedLen := attrLen;
      if paddedLen % 4 != 0 { paddedLen := paddedLen + (4 - attrLen % 4); }
      offset := offset + 4 + paddedLen;
    }
    WalkEnds(data, txn, offset, seen, mappedAddr);
    r := if mappedAddr.None? then NoAddress else Found(mappedAddr.value);
  }

  lemma WalkStarts(data: Bytes, txn: Bytes)
    requires |txn| == 12 && |data| >= HEADER_SIZE
    ensures Walked(data, txn, HEADER_SIZE, [], None)
  {}

  /** At the end, or at an attribute that does not fit, everything has been seen. */
  lemma WalkEnds(data: Bytes, txn: Bytes, offset: nat, seen: seq<Attr>, mapped: Option<Addr>)
    requires |txn| == 12 && |data| >= HEADER_SIZE && Walked(data, txn, offset, seen, mapped)
    requires offset + 4 <= |data| ==> offset + 4 + Un16(data[offset + 2..offset + 4]) > |data|
    ensures Selected(Attrs(data[HEADER_SIZE..]), txn) == if mapped.Some? then Found(mapped.value) else NoAddress
  {
    if offset + 4 <= |data| { AttrAt(data, offset); }
    assert seen + [] == seen;
  }

  // ---------------------------------------------------------------- encoding an attribute list

  /** An attribute as section 15 of RFC 5389 lays it out; the padding may hold anything. */
  datatype Tlv = Tlv(attr: Attr, pad: Bytes)
  {
    predicate Fits() {
      attr.kind < 0x1_0000 && |attr.value| < 0x1_0000 && |attr.value| + |pad| == Padded(|attr.value|)
    }
  }

  predicate AllFit(ts: seq<Tlv>) { forall i :: 0 <= i < |ts| ==> ts[i].Fits() }

  function EncodeAll(ts: seq<Tlv>): Bytes
    requires AllFit(ts)
  {
    if ts == [] then []
    else Be16(ts[0].attr.kind) + Be16(|ts[0].attr.value|) + ts[0].attr.value + ts[0].pad + EncodeAll(ts[1..])
  }

  function AttrsOf(ts: seq<Tlv>): seq<Attr> { if ts == [] then [] else [ts[0].attr] + AttrsOf(ts[1..]) }

  lemma {:induction false} AttrsOfEncoding(ts: seq<Tlv>)
    requires AllFit(ts)
    ensures Attrs(EncodeAll(ts)) == AttrsOf(ts)
  {
    if ts != [] {
      assert ts[0].Fits();
      assert forall i :: 0 <= i < |ts[1..]| ==> ts[1..][i] == ts[i + 1];
      FirstAttr(ts[0], EncodeAll(ts[1..]));
      AttrsOfEncoding(ts[1..]);
      hide Attrs, Be16;
    }
  }

  /** The walk over one encoded attribute and what follows it. */
  lemma FirstAttr(t: Tlv, rest: Bytes)
    requires t.Fits()
    ensures Attrs(Be16(t.attr.kind) + Be16(|t.attr.value|) + t.attr.value + t.pad + rest) == [t.attr] + Attrs(rest)
  {
    var a, n := t.attr, |t.attr.value|;
    HalfWordRoundTrip(a.kind);
    HalfWordRoundTrip(n);
    hide Un16, Be16;
    var head := Be16(a.kind) + Be16(n);
    var d := head + a.value + t.pad + rest;
    AtFront(head, a.value, t.pad, rest);
    assert head[..2] == Be16(a.kind) && head[2..4] == Be16(n);
    assert d[..2] == head[..2] && d[2..4] == head[2..4];
  }

  lemma AtFront(head: Bytes, value: Bytes, pad: Bytes, rest: Bytes)
    requires |head| == 4
    ensures var d, n := head + value + pad + rest, |value|;
            d[4..4 + n] == value && d[4 + n + |pad|..] == rest && d[..4] == head
  {}

  /** A header of section 6 of RFC 5389 for a body of `n` octets. */
  function Header(n: nat, txn: Bytes): (h: Bytes)
    requires n < 0x1_0000 && |txn| == 12
    ensures |h| == HEADER_SIZE
  {
    Be16(RESPONSE) + Be16(n) + Be32(COOKIE) + txn
  }

  lemma HeaderReads(n: nat, txn: Bytes, body: Bytes)
    requires n < 0x1_0000 && |txn| == 12
    ensures var d := Header(n, txn) + body;
            Un16(d[0..2]) == RESPONSE && Un16(d[2..4]) == n && Un32(d[4..8]) == COOKIE
            && d[8..HEADER_SIZE] == txn && d[HEADER_SIZE..] == body
  {
    var d := Header(n, txn) + body;
    HalfWordRoundTrip(RESPONSE);
    HalfWordRoundTrip(n);
    WordRoundTrip(COOKIE);
    assert d[0..2] == Be16(RESPONSE) && d[2..4] == Be16(n) && d[4..8] == Be32(COOKIE) && d[8..HEADER_SIZE] == txn;
  }

  /** A well-formed response means what its attribute list says, whatever the attributes and their padding. */
  lemma ResponseSelects(ts: seq<Tlv>, sent: Bytes, txn: Bytes)
    requires AllFit(ts) && |sent| == |txn| == 12 && HEADER_SIZE + |EncodeAll(ts)| < 0x1_0000
    ensures Response(Header(|EncodeAll(ts)|, sent) + EncodeAll(ts), txn) == Selected(AttrsOf(ts), txn)
  {
    var body := EncodeAll(ts);
    HeaderReads(|body|, sent, body);
    AttrsOfEncoding(ts);
    hide Selected, Attrs, EncodeAll, AttrsOf, AllFit, Header, Un16, Un32;
    GoodHeader(Header(|body|, sent) + body, body, txn);
  }

  lemma GoodHeader(d: Bytes, body: Bytes, txn: Bytes)
    requires |txn| == 12 && |d| == HEADER_SIZE + |body| < 0x1_0000 && d[HEADER_SIZE..] == body
    requires Un16(d[0..2]) == RESPONSE && Un16(d[2..4]) == |body| && Un32(d[4..8]) == COOKIE
    ensures Response(d, txn) == Selected(Attrs(body), txn)
  {
    hide Selected, Attrs, Un16, Un32;
  }

  // ---------------------------------------------------------------- the server's response

  /** The attribute value for an IPv4 address: family, and port and address under the cookie. */
  function XorValue4(ip: Bytes, port: nat): (v: Bytes)
    requires |ip| == 4 && port < 0x1_0000
    ensures |v| == 8
  {
    [0, 1] + XorBytes(Be16(port), Key([])) + XorBytes(ip, Key([]))
  }

  /** One XOR-MAPPED-ADDRESS under the request's transaction id. */
  function ServerResponse(req: Bytes, ip: Bytes, port: nat): Bytes
    requires |req| >= HEADER_SIZE && |ip| == 4 && port < 0x1_0000
  {
    Header(12, req[8..20]) + EncodeAll([Tlv(Attr(XOR_MAPPED, XorValue4(ip, port)), [])])
  }

  lemma KeyedPort(port: nat)
    requires port < 0x1_0000
    ensures Xor(port, COOKIE / 0x1_0000, 16) < 0x1_0000
    ensures Be16(Xor(port, COOKIE / 0x1_0000, 16)) == XorBytes(Be16(port), Key([]))
  {
    var key := [0x21, 0x12];
    HalfWordRoundTrip(port);
    assert Un16(key) == COOKIE / 0x1_0000;
    XorHalfWord(Be16(port), key);
    var b := XorBytes(Be16(port), Key([]));
    assert b == [XorByte(Be16(port)[0], key[0]), XorByte(Be16(port)[1], key[1])];
    HalfWordsAreUnique(b);
  }

  lemma KeyedIp(ip: Bytes)
    requires |ip| == 4
    ensures Xor(Un32(ip), COOKIE, 32) < WRAP
    ensures Be32(Xor(Un32(ip), COOKIE, 32)) == XorBytes(ip, Key([]))
  {
    var key := Key([]);
    assert Un32(key) == COOKIE;
    XorWord(ip, key);
    var b := XorBytes(ip, key);
    assert b == [XorByte(ip[0], key[0]), XorByte(ip[1], key[1]), XorByte(ip[2], key[2]), XorByte(ip[3], key[3])];
    WordsAreUnique(b);
  }

  /** The part of buildSTUNResponse that fills attrValue; `ip` is the client's IPv4 address. */
  method AttrValue(ip: Bytes, port: nat) returns (attrValue: array<Byte>)
    requires |ip| == 4 && port < 0x1_0000
    ensures fresh(attrValue) && attrValue[..] == XorValue4(ip, port)
  {
    KeyedPort(port);
    KeyedIp(ip);
    hide Xor, XorBytes, Key, Un32, Be16, Be32;
    var xorPort := Xor(port, COOKIE / 0x1_0000, 16);
    var xorIP := Xor(Un32(ip), COOKIE, 32);
    attrValue := new Byte[8](i => 0);
    attrValue[1] := 1;
    PutUint16(attrValue, 2, xorPort);
    PutUint32(attrValue, 4, xorIP);
  }

  /** The part that fills the header. */
  method PutHeader(resp: array<Byte>, txn: Bytes)
    requires resp.Length >= HEADER_SIZE && |txn| == 12
    modifies resp
    ensures resp[..] == Header(12, txn) + old(resp[HEADER_SIZE..])
  {
    hide Be16, Be32;
    PutUint16(resp, 0, RESPONSE);
    PutUint16(resp, 2, 12);
    PutUint32(resp, 4, COOKIE);
    Copy(resp, 8, txn);
  }

  method BuildSTUNResponse(req: Bytes, ip: Bytes, port: nat) returns (resp: array<Byte>)
    requires |req| >= HEADER_SIZE && |ip| == 4 && port < 0x1_0000
    ensures fresh(resp) && resp[..] == ServerResponse(req, ip, port)
  {
    hide XorValue4, Be16, Be32, Header;
    var txnID := new Byte[12](i => 0);
    Copy(txnID, 0, req[8..20]);
    var attrValue := AttrValue(ip, port);
    var attr := new Byte[4](i => 0);
    PutUint16(attr, 0, XOR_MAPPED);
    PutUint16(attr, 2, attrValue.Length);
    assert attr[..] == Be16(XOR_MAPPED) + Be16(8);

    resp := new Byte[32](i => 0);
    assert txnID[..] == req[8..20];
    PutHeader(resp, txnID[..]);
    Copy(resp, 20, attr[..]);
    assert resp[..24] == Header(12, req[8..20]) + attr[..];
    Copy(resp, 24, attrValue[..]);
    assert resp[..] == Header(12, req[8..20]) + (attr[..] + attrValue[..]);
    OneAttribute(ip, port);
  }

  lemma OneAttribute(ip: Bytes, port: nat)
    requires |ip| == 4 && port < 0x1_0000
    ensures EncodeAll([Tlv(Attr(XOR_MAPPED, XorValue4(ip, port)), [])])
            == Be16(XOR_MAPPED) + Be16(8) + XorValue4(ip, port)
  {}

  // ---------------------------------------------------------------- where the two do not meet

  /** parseXORMappedAddr takes the first octet of the value for the family; the second one holds it. */
  lemma AcceptedIff(v: Bytes, txn: Bytes)
    requires |txn| == 12
    ensures XorMapped(v, txn).Some? <==> (|v| >= 8 && v[0] == 1) || (|v| >= 20 && v[0] == 2)
    ensures Mapped(v).Some? <==> (|v| >= 8 && v[0] == 1) || (|v| >= 20 && v[0] == 2)
  {}

  /** An address attribute as sections 15.1 and 15.2 of RFC 5389 prescribe it: its first octet is zero. */
  predicate Conforms(a: Attr) { (a.kind == XOR_MAPPED || a.kind == MAPPED) && |a.value| > 0 ==> a.value[0] == 0 }

  lemma {:induction false} NothingMapped(attrs: seq<Attr>)
    requires forall i :: 0 <= i < |attrs| ==> Conforms(attrs[i])
    ensures FirstMapped(attrs).None?
  {
    if attrs != [] {
      assert Conforms(attrs[0]);
      assert forall i :: 0 <= i < |attrs[1..]| ==> attrs[1..][i] == attrs[i + 1];
      NothingMapped(attrs[1..]);
    }
  }

  lemma {:induction false} NoXor(attrs: seq<Attr>, txn: Bytes)
    requires |txn| == 12 && forall i :: 0 <= i < |attrs| ==> attrs[i].kind != XOR_MAPPED
    ensures LastXor(attrs, txn).None?
  {
    if attrs != [] { NoXor(attrs[..|attrs| - 1], txn); }
  }

  /** So no conforming response ever yields an address: with an XOR-MAPPED-ADDRESS it is refused as invalid,
      without one it counts as holding no address. */
  lemma ConformingResponsesFail(attrs: seq<Attr>, txn: Bytes)
    requires |txn| == 12 && forall i :: 0 <= i < |attrs| ==> Conforms(attrs[i])
    ensures Selected(attrs, txn) ==
            if exists i :: 0 <= i < |attrs| && attrs[i].kind == XOR_MAPPED then Invalid else NoAddress
  {
    NothingMapped(attrs);
    if i :| 0 <= i < |attrs| && attrs[i].kind == XOR_MAPPED {
      assert Conforms(attrs[i]);
      assert Malformed(attrs[i], txn);
    } else {
      NoXor(attrs, txn);
      hide XorMapped;
    }
  }

  /** The same for any bytes at all whose attributes conform: the client finds no address in them. */
  lemma ConformingBytesFail(data: Bytes, txn: Bytes)
    requires |txn| == 12 && |data| >= HEADER_SIZE
    requires forall a :: a in Attrs(data[HEADER_SIZE..]) ==> Conforms(a)
    ensures !Response(data, txn).Found?
    ensures Response(data, txn).NoAddress? ==> forall a :: a in Attrs(data[HEADER_SIZE..]) ==> a.kind != XOR_MAPPED
  {
    var attrs := Attrs(data[HEADER_SIZE..]);
    forall i | 0 <= i < |attrs| ensures Conforms(attrs[i]) { assert attrs[i] in attrs; }
    hide Selected, Attrs, Conforms;
    ConformingResponsesFail(attrs, txn);
  }

  /** In particular the client refuses every response of this repository's own server. */
  lemma OwnResponseIsRefused(req: Bytes, ip: Bytes, port: nat, txn: Bytes)
    requires |req| >= HEADER_SIZE && |ip| == 4 && port < 0x1_0000 && |txn| == 12
    ensures Response(ServerResponse(req, ip, port), txn) == Invalid
  {
    var ts := [Tlv(Attr(XOR_MAPPED, XorValue4(ip, port)), [])];
    var attrs := AttrsOf(ts);
    assert ts[1..] == [];
    assert AttrsOf(ts[1..]) == [];
    assert attrs == [ts[0].attr];
    assert ts[0].Fits();
    OneAttribute(ip, port);
    ResponseSelects(ts, req[8..20], txn);
    assert attrs[0].kind == XOR_MAPPED && Conforms(attrs[0]);
    hide Selected, Response, ServerResponse;
    ConformingResponsesFail(attrs, txn);
  }

  // ---------------------------------------------------------------- what the arithmetic recovers

  /** The attribute value the parser is ready for: the family in the first octet. */
  function Expected4(ip: Bytes, port: nat): Bytes
    requires |ip| == 4 && port < 0x1_0000
  {
    [1, 0] + XorBytes(Be16(port), Key([])) + XorBytes(ip, Key([]))
  }

  lemma PortComesBack(port: nat)
    requires port < 0x1_0000
    ensures Xor(Un16(XorBytes(Be16(port), Key([]))), COOKIE / 0x1_0000, 16) == port
  {
    KeyedPort(port);
    var x := Xor(port, COOKIE / 0x1_0000, 16);
    HalfWordRoundTrip(x);
    PowersOfTwo();
    hide Xor, Pow2;
    XorTwice(port, COOKIE / 0x1_0000, 16);
  }

  lemma OctetComesBack(a: Byte, b: Byte)
    ensures XorByte(XorByte(a, b), b) == a
  {
    assert Pow2(8) == 256;
    XorTwice(a, b, 8);
  }

  lemma OctetUnderTwoKeys(a: Byte, b: Byte, c: Byte)
    ensures XorByte(XorByte(a, b), c) == XorByte(a, XorByte(b, c))
  {
    XorAssociates(a, b, c, 8);
  }

  /** With the family where the parser looks for it, the port comes back; of the address, the last octet does,
      and the others turn into functions of the last. */
  lemma WrittenExpression(ip: Bytes, port: nat, txn: Bytes)
    requires |ip| == 4 && port < 0x1_0000 && |txn| == 12
    ensures XorMapped(Expected4(ip, port), txn)
            == Some(Addr([XorByte(ip[3], 0x63), XorByte(ip[3], 0x50), XorByte(ip[3], 0xE6), ip[3]], port))
  {
    Expected4Parts(ip, port);
    var x := XorBytes(ip, Key([]));
    hide Expected4, XorByte, Xor, Un16, Be16, Un32, XorBytes, Key, WrittenOctet;
    PortComesBack(port);
    WrittenOctets(x);
    Octets(ip[3]);
  }

  lemma Expected4Parts(ip: Bytes, port: nat)
    requires |ip| == 4 && port < 0x1_0000
    ensures var v := Expected4(ip, port);
            |v| == 8 && v[0] == 1 && v[2..4] == XorBytes(Be16(port), Key([])) && v[4..8] == XorBytes(ip, Key([]))
    ensures XorBytes(ip, Key([]))[3] == XorByte(ip[3], 0x42)
  {
    hide XorByte;
  }

  lemma WrittenOctets(x: Bytes)
    requires |x| == 4
    ensures WrittenOctet(Un32(x), 0x100_0000) == XorByte(x[3], 0x21)
    ensures WrittenOctet(Un32(x), 0x1_0000) == XorByte(x[3], 0x12)
    ensures WrittenOctet(Un32(x), 256) == XorByte(x[3], 0xA4)
    ensures WrittenOctet(Un32(x), 1) == XorByte(x[3], 0x42)
  {
    hide XorByte, Xor, Un32;
    XorLow(x, COOKIE / 0x100_0000);
    XorLow(x, COOKIE / 0x1_0000);
    XorLow(x, COOKIE / 256);
    XorLow(x, COOKIE);
  }

  lemma Octets(a: Byte)
    ensures XorByte(XorByte(a, 0x42), 0x21) == XorByte(a, 0x63)
    ensures XorByte(XorByte(a, 0x42), 0x12) == XorByte(a, 0x50)
    ensures XorByte(XorByte(a, 0x42), 0xA4) == XorByte(a, 0xE6)
    ensures XorByte(XorByte(a, 0x42), 0x42) == a
  {
    hide XorByte;
    OctetUnderTwoKeys(a, 0x42, 0x21);
    OctetUnderTwoKeys(a, 0x42, 0x12);
    OctetUnderTwoKeys(a, 0x42, 0xA4);
    OctetComesBack(a, 0x42);
    Constants();
  }

  /** The exclusive or of two octets, half by half. */
  lemma Halfwise(a: nat, a0: nat, b: nat, b0: nat)
    requires a < 16 && a0 < 16 && b < 16 && b0 < 16
    ensures XorByte(a * 16 + a0, b * 16 + b0) == Xor(a, b, 4) * 16 + Xor(a0, b0, 4)
  {
    hide Xor;
    assert Pow2(4) == 16;
    XorSplits(a, b, 4, a0, b0, 4);
  }

  lemma Constants()
    ensures XorByte(0x42, 0x21) == 0x63 && XorByte(0x42, 0x12) == 0x50 && XorByte(0x42, 0xA4) == 0xE6
  {
    hide XorByte;
    Halfwise(4, 2, 2, 1);
    Halfwise(4, 2, 1, 2);
    Halfwise(4, 2, 10, 4);
    assert Xor(4, 2, 4) == 6 && Xor(2, 1, 4) == 3;
    assert Xor(4, 1, 4) == 5 && Xor(2, 2, 4) == 0;
    assert Xor(4, 10, 4) == 14 && Xor(2, 4, 4) == 6;
    hide Xor;
  }

  /** The whole IPv4 address comes back exactly for the addresses of this form. */
  lemma WholeAddressIff(ip: Bytes, port: nat, txn: Bytes)
    requires |ip| == 4 && port < 0x1_0000 && |txn| == 12
    ensures XorMapped(Expected4(ip, port), txn) == Some(Addr(ip, port))
            <==> ip[0] == XorByte(ip[3], 0x63) && ip[1] == XorByte(ip[3], 0x50) && ip[2] == XorByte(ip[3], 0xE6)
  {
    WrittenExpression(ip, port, txn);
    hide XorMapped, XorByte;
    var got := [XorByte(ip[3], 0x63), XorByte(ip[3], 0x50), XorByte(ip[3], 0xE6), ip[3]];
    assert got == ip <==> got[0] == ip[0] && got[1] == ip[1] && got[2] == ip[2];
  }

  /** 203.0.113.7 is not of this form. */
  lemma AddressIsLost(port: nat, txn: Bytes)
    requires port < 0x1_0000 && |txn| == 12
    ensures XorMapped(Expected4([203, 0, 113, 7], port), txn) != Some(Addr([203, 0, 113, 7], port))
  {
    WholeAddressIff([203, 0, 113, 7], port, txn);
    assert XorByte(7, 0x63) == 0x64;
  }

  /** `byte((xorIP ^ stunMagicCookie) >> k)`, and the family in the second octet. */
  function Intended(v: Bytes): Option<Addr> {
    if |v| < 8 || v[1] != 1 then None
    else
      var n := Xor(Un32(v[4..8]), COOKIE, 32);
      Some(Addr([Digit(n, 0x100_0000), Digit(n, 0x1_0000), Digit(n, 256), Digit(n, 1)],
                Xor(Un16(v[2..4]), COOKIE / 0x1_0000, 16)))
  }

  /** Read as intended, the server's attribute gives back every address and port. */
  lemma IntendedRoundTrip(ip: Bytes, port: nat)
    requires |ip| == 4 && port < 0x1_0000
    ensures Intended(XorValue4(ip, port)) == Some(Addr(ip, port))
  {
    var v := XorValue4(ip, port);
    var x := XorBytes(ip, Key([]));
    assert v[2..4] == XorBytes(Be16(port), Key([])) && v[4..8] == x;
    PortComesBack(port);
    KeyedIp(ip);
    var n := Xor(Un32(ip), COOKIE, 32);
    WordRoundTrip(n);
    PowersOfTwo();
    hide Xor, Pow2;
    XorTwice(Un32(ip), COOKIE, 32);
    WordsAreUnique(ip);
  }

  /** IPv6: the key of cookie and transaction id, applied again, gives back the address. */
  lemma Ipv6RoundTrip(ip: Bytes, port: nat, txn: Bytes)
    requires |ip| == 16 && port < 0x1_0000 && |txn| == 12
    ensures XorMapped([2, 0] + XorBytes(Be16(port), Key([])) + XorBytes(ip, Key(txn)), txn) == Some(Addr(ip, port))
  {
    var v := [2, 0] + XorBytes(Be16(port), Key([])) + XorBytes(ip, Key(txn));
    assert v[2..4] == XorBytes(Be16(port), Key([])) && v[4..20] == XorBytes(ip, Key(txn));
    PortComesBack(port);
    forall i | 0 <= i < 16 ensures XorByte(XorByte(ip[i], Key(txn)[i]), Key(txn)[i]) == ip[i] {
      OctetComesBack(ip[i], Key(txn)[i]);
    }
    assert XorBytes(XorBytes(ip, Key(txn)), Key(txn)) == ip;
  }

  // ---------------------------------------------------------------- octet by octet

  /** The octets of 0x2112A442. */
  const COOKIE_OCTETS: Bytes := [0x21, 0x12, 0xA4, 0x42]

  lemma CookieOctets(b: Bytes)
    requires |b| == 4
    ensures Un32(b) == COOKIE <==> b == COOKIE_OCTETS
  {
    if Un32(b) == COOKIE {
      WordsAreUnique(b);
      WordsAreUnique(COOKIE_OCTETS);
    }
  }

  lemma KeyOctets(txn: Bytes)
    requires |txn| == 12
    ensures |Key(txn)| == 16 && Key(txn)[..4] == COOKIE_OCTETS && forall k :: 0 <= k < 12 ==> Key(txn)[4 + k] == txn[k]
  {}

  /** MAPPED-ADDRESS: the port and the octets as they stand. */
  lemma MappedOctets(v: Bytes)
    requires Mapped(v).Some?
    ensures var addr := Mapped(v).value;
            && addr.port == v[2] as int * 256 + v[3] as int
            && |addr.ip| == (if v[0] == 1 then 4 else 16)
            && forall k :: 0 <= k < |addr.ip| ==> addr.ip[k] == v[4 + k]
  {
    assert v[2..4] == [v[2], v[3]];
  }

  /** XOR-MAPPED-ADDRESS: the port under the cookie's first two octets, an IPv6 octet under that of the cookie or the
      transaction id, and all four IPv4 octets from the last one. */
  lemma XorMappedOctets(v: Bytes, txn: Bytes)
    requires |txn| == 12 && XorMapped(v, txn).Some?
    ensures var addr := XorMapped(v, txn).value;
            && addr.port == XorByte(v[2], 0x21) * 256 + XorByte(v[3], 0x12)
            && (v[0] == 1 ==> addr.ip == [XorByte(v[7], 0x21), XorByte(v[7], 0x12), XorByte(v[7], 0xA4),
                                          XorByte(v[7], 0x42)])
            && (v[0] == 2 ==>
                  |addr.ip| == 16
                  && (forall k :: 0 <= k < 4 ==> addr.ip[k] == XorByte(v[4 + k], COOKIE_OCTETS[k]))
                  && forall k :: 4 <= k < 16 ==> addr.ip[k] == XorByte(v[4 + k], txn[k - 4]))
  {
    var key: Bytes := [0x21, 0x12];
    assert Un16(key) == COOKIE / 0x1_0000;
    XorHalfWord(v[2..4], key);
    hide XorByte, Xor;
    if v[0] == 1 { WrittenOctets(v[4..8]); }
  }

  /** The response is read by its octets 0, 1 and 4 to 7 and by the length in octets 2 and 3. */
  lemma ResponseOctets(data: Bytes, txn: Bytes)
    requires |txn| == 12
    ensures Response(data, txn) ==
            if |data| >= 20 && data[0] == 1 && data[1] == 1 && data[4..8] == COOKIE_OCTETS
               && data[2] as int * 256 + data[3] as int <= (|data| - 20) % 0x1_0000
            then Selected(Attrs(data[20..]), txn) else Invalid
  {
    if |data| >= HEADER_SIZE {
      assert data[0..2] == [data[0], data[1]] && data[2..4] == [data[2], data[3]];
      CookieOctets(data[4..8]);
      assert BodyLength(|data|) == (|data| - 20) % 0x1_0000;
      hide Selected, Attrs, Un32, BodyLength;
    }
  }

  /** A response with one address attribute of kind 0x0001 or 0x0020 and family 1 gives its address. */
  lemma OneAddressFound(txn: Bytes, kind: Byte, x: Byte, p: Bytes, a: Bytes)
    requires |txn| == 12 && |p| == 2 && |a| == 4 && (kind == 0x01 || kind == 0x20)
    ensures Response([1, 1, 0, 12] + COOKIE_OCTETS + txn + [0, kind, 0, 8, 1, x] + p + a, txn)
            == Found(if kind == 0x01 then Mapped([1, x] + p + a).value else XorMapped([1, x] + p + a, txn).value)
  {
    var v := [1, x] + p + a;
    var ts := [Tlv(Attr(kind, v), [])];
    assert ts[1..] == [] && AttrsOf(ts[1..]) == [] && EncodeAll(ts[1..]) == [];
    assert ts[0].Fits() && AttrsOf(ts) == [Attr(kind, v)];
    assert EncodeAll(ts) == [0, kind, 0, 8] + v;
    assert Header(12, txn) == [1, 1, 0, 12] + COOKIE_OCTETS + txn;
    assert [1, 1, 0, 12] + COOKIE_OCTETS + txn + [0, kind, 0, 8, 1, x] + p + a == Header(12, txn) + EncodeAll(ts);
    ResponseSelects(ts, txn, txn);
    OnlyAttribute(Attr(kind, v), txn);
  }

  lemma OnlyAttribute(a: Attr, txn: Bytes)
    requires |txn| == 12 && (a.kind == MAPPED || a.kind == XOR_MAPPED)
    requires |a.value| == 8 && a.value[0] == 1
    ensures Selected([a], txn)
            == Found(if a.kind == MAPPED then Mapped(a.value).value else XorMapped(a.value, txn).value)
  {
    assert Selected([], txn) == NoAddress;
    SelectedGrows([], a, txn);
    assert [] + [a] == [a];
  }

  /** The server's response, octet by octet. */
  lemma ServerOctets(req: Bytes, ip: Bytes, port: nat)
    requires |req| >= HEADER_SIZE && |ip| == 4 && port < 0x1_0000
    ensures ServerResponse(req, ip, port) ==
            [1, 1, 0, 12] + COOKIE_OCTETS + req[8..20] + [0, 0x20, 0, 8, 0, 1]
            + [XorByte(Digit(port, 256), 0x21), XorByte(Digit(port, 1), 0x12)]
            + [XorByte(ip[0], 0x21), XorByte(ip[1], 0x12), XorByte(ip[2], 0xA4), XorByte(ip[3], 0x42)]
  {
    hide XorByte;
    OneAttribute(ip, port);
    assert Be16(XOR_MAPPED) + Be16(8) == [0, 0x20, 0, 8];
    assert Header(12, req[8..20]) == [1, 1, 0, 12] + COOKIE_OCTETS + req[8..20];
    assert XorBytes(Be16(port), Key([])) == [XorByte(Digit(port, 256), 0x21), XorByte(Digit(port, 1), 0x12)];
    assert XorBytes(ip, Key([]))
        == [XorByte(ip[0], 0x21), XorByte(ip[1], 0x12), XorByte(ip[2], 0xA4), XorByte(ip[3], 0x42)];
  }

  // ---------------------------------------------------------------- which attribute counts

  /** Attribute `i` is the one that counts: the last XOR-MAPPED-ADDRESS, or without one the first MAPPED-ADDRESS that
      can be decoded. */
  ghost predicate Counts(attrs: seq<Attr>, i: int) {
    && 0 <= i < |attrs|
    && if attrs[i].kind == XOR_MAPPED then forall k :: i < k < |attrs| ==> attrs[k].kind != XOR_MAPPED
       else
         && attrs[i].kind == MAPPED && Mapped(attrs[i].value).Some?
         && (forall k :: 0 <= k < |attrs| ==> attrs[k].kind != XOR_MAPPED)
         && forall k :: 0 <= k < i && attrs[k].kind == MAPPED ==> Mapped(attrs[k].value).None?
  }

  lemma {:induction false} LastXorIs(attrs: seq<Attr>, txn: Bytes, i: nat)
    requires |txn| == 12 && i < |attrs| && attrs[i].kind == XOR_MAPPED
    requires forall k :: i < k < |attrs| ==> attrs[k].kind != XOR_MAPPED
    ensures LastXor(attrs, txn) == XorMapped(attrs[i].value, txn)
  {
    if i < |attrs| - 1 { LastXorIs(attrs[..|attrs| - 1], txn, i); }
  }

  lemma {:induction false} FirstMappedIs(attrs: seq<Attr>, i: nat)
    requires i < |attrs| && attrs[i].kind == MAPPED && Mapped(attrs[i].value).Some?
    requires forall k :: 0 <= k < i && attrs[k].kind == MAPPED ==> Mapped(attrs[k].value).None?
    ensures FirstMapped(attrs) == Mapped(attrs[i].value)
  {
    if i > 0 {
      assert forall k :: 0 <= k < |attrs[1..]| ==> attrs[1..][k] == attrs[k + 1];
      FirstMappedIs(attrs[1..], i - 1);
    }
  }

  /** The address found is that of the attribute that counts, unless some XOR-MAPPED-ADDRESS is malformed. */
  lemma OneAttributeCounts(attrs: seq<Attr>, txn: Bytes, i: nat)
    requires |txn| == 12 && Counts(attrs, i)
    ensures Selected(attrs, txn) ==
            if exists k :: 0 <= k < |attrs| && attrs[k].kind == XOR_MAPPED && XorMapped(attrs[k].value, txn).None?
            then Invalid
            else if attrs[i].kind == XOR_MAPPED then Found(XorMapped(attrs[i].value, txn).value)
            else Found(Mapped(attrs[i].value).value)
  {
    hide XorMapped, Mapped;
    assert forall k :: 0 <= k < |attrs| ==>
             (Malformed(attrs[k], txn) <==> attrs[k].kind == XOR_MAPPED && XorMapped(attrs[k].value, txn).None?);
    if attrs[i].kind == XOR_MAPPED {
      LastXorIs(attrs, txn, i);
    } else {
      NoXor(attrs, txn);
      FirstMappedIs(attrs, i);
    }
  }

  lemma {:induction false} NoneMapped(attrs: seq<Attr>)
    requires forall k :: 0 <= k < |attrs| && attrs[k].kind == MAPPED ==> Mapped(attrs[k].value).None?
    ensures FirstMapped(attrs).None?
  {
    if attrs != [] {
      assert forall k :: 0 <= k < |attrs[1..]| ==> attrs[1..][k] == attrs[k + 1];
      NoneMapped(attrs[1..]);
    }
  }

  /** Without an attribute that counts there is no address. */
  lemma NoneCounts(attrs: seq<Attr>, txn: Bytes)
    requires |txn| == 12 && forall k :: 0 <= k < |attrs| ==> attrs[k].kind != XOR_MAPPED
    requires forall k :: 0 <= k < |attrs| && attrs[k].kind == MAPPED ==> Mapped(attrs[k].value).None?
    ensures Selected(attrs, txn) == NoAddress
  {
    hide XorMapped, Mapped;
    NoXor(attrs, txn);
    NoneMapped(attrs);
  }

  /** No whole attribute fits into `tail`. */
  predicate TooShort(tail: Bytes) { |tail| < 4 || 4 + Un16(tail[2..4]) > |tail| }

  lemma Associates(a: Bytes, b: Bytes, c: Bytes)
    ensures a + b + c == a + (b + c)
  {}

  lemma OnlyTail(tail: Bytes)
    requires TooShort(tail)
    ensures Attrs(tail) == []
  {}

  /** The walk stops at the first attribute that does not fit, and keeps all those before it. */
  lemma {:induction false} CutListIsRead(ts: seq<Tlv>, tail: Bytes)
    requires AllFit(ts) && TooShort(tail)
    ensures Attrs(EncodeAll(ts) + tail) == AttrsOf(ts)
  {
    hide Attrs, Be16, TooShort;
    if ts == [] {
      assert [] + tail == tail;
      OnlyTail(tail);
    } else {
      assert ts[0].Fits();
      assert forall i :: 0 <= i < |ts[1..]| ==> ts[1..][i] == ts[i + 1];
      CutListIsRead(ts[1..], tail);
      FirstAttr(ts[0], EncodeAll(ts[1..]) + tail);
      var head := Be16(ts[0].attr.kind) + Be16(|ts[0].attr.value|) + ts[0].attr.value + ts[0].pad;
      Associates(head, EncodeAll(ts[1..]), tail);
    }
  }
}
