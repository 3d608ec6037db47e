/** The 9-byte frame header and the byte stream it cuts into frames (signal-server/main.go:1172-1213). */
module FrameCodec {
  import opened RelayTypes
  import opened Words

  const HEADER: nat := 9

  /** type, channel id and payload, as readFrame returns them. */
  datatype Raw = Raw(kind: Byte, channel: nat, payload: Bytes)

  predicate Framed(f: Raw) { f.channel < WRAP && |f.payload| < WRAP }

  predicate Small(f: Raw) { f.channel < WRAP && |f.payload| <= MAX_FRAME }

  // ---------------------------------------------------------------- one frame

  function Encode(f: Raw): (b: Bytes)
    requires Framed(f)
    ensures |b| == HEADER + |f.payload|
  {
    [f.kind] + Be32(f.channel) + Be32(|f.payload|) + f.payload
  }

  /** readFrame on the bytes still to come: a frame and what follows it, an end of stream, or a refusal. */
  datatype Reading = Read(frame: Raw, rest: Bytes) | Ended | TooLarge

  function ReadOne(s: Bytes): Reading {
    if |s| < HEADER then Ended
    else
      var n := Un32(s[5..9]);
      if n > MAX_FRAME then TooLarge
      else if |s| < HEADER + n then Ended
      else Read(Raw(s[0], Un32(s[1..5]), s[HEADER..HEADER + n]), s[HEADER + n..])
  }

  /** The number of four octets, the first one highest. */
  function Value(b0: Byte, b1: Byte, b2: Byte, b3: Byte): int { ((b0 * 256 + b1) * 256 + b2) * 256 + b3 }

  /** What stands where: the type first, then the channel, then the length, then the payload. */
  lemma EncodeOctets(f: Raw)
    requires Framed(f)
    ensures var b := Encode(f);
            && b[0] == f.kind
            && Value(b[1], b[2], b[3], b[4]) == f.channel
            && Value(b[5], b[6], b[7], b[8]) == |f.payload|
            && b[9..] == f.payload
  {
    WordRoundTrip(f.channel);
    WordRoundTrip(|f.payload|);
  }

  /** What readFrame makes of any octets: nine for the header, and then as many as it says, up to 65536. */
  lemma ReadOctets(s: Bytes)
    ensures |s| < 9 ==> ReadOne(s) == Ended
    ensures |s| >= 9 ==>
              var n := Value(s[5], s[6], s[7], s[8]);
              ReadOne(s) ==
              if n > 65536 then TooLarge
              else if |s| - 9 < n then Ended
              else Read(Raw(s[0], Value(s[1], s[2], s[3], s[4]), s[9..9 + n]), s[9 + n..])
  {
    if |s| >= 9 {
      assert s[5..9] == [s[5], s[6], s[7], s[8]] && s[1..5] == [s[1], s[2], s[3], s[4]];
    }
  }

  /** A written frame is read back whole if its payload fits, and refused if it does not. */
  lemma ReadsBackIff(f: Raw, rest: Bytes)
    requires Framed(f)
    ensures ReadOne(Encode(f) + rest) == if |f.payload| <= MAX_FRAME then Read(f, rest) else TooLarge
  {
    var s := Encode(f) + rest;
    assert s[0] == f.kind;
    assert s[1..5] == Be32(f.channel);
    assert s[5..9] == Be32(|f.payload|);
    WordRoundTrip(f.channel);
    WordRoundTrip(|f.payload|);
    if |f.payload| <= MAX_FRAME {
      assert s[HEADER..HEADER + |f.payload|] == f.payload;
      assert s[HEADER + |f.payload|..] == rest;
    }
  }

  /** No proper prefix of a frame reads as a frame. */
  lemma CutFrameEnds(f: Raw, n: nat)
    requires Small(f) && n < |Encode(f)|
    ensures ReadOne(Encode(f)[..n]) == Ended
  {
    var s := Encode(f)[..n];
    if n >= HEADER {
      assert s[5..9] == Encode(f)[5..9] == Be32(|f.payload|);
      WordRoundTrip(|f.payload|);
    }
  }

  // ---------------------------------------------------------------- streams of frames

  predicate AllSmall(fs: seq<Raw>) { forall i :: 0 <= i < |fs| ==> Small(fs[i]) }

  function EncodeAll(fs: seq<Raw>): Bytes
    requires AllSmall(fs)
  {
    if fs == [] then [] else Encode(fs[0]) + EncodeAll(fs[1..])
  }

  /** What a read loop gets out of a stream before it has to stop. */
  function DecodeAll(s: Bytes): seq<Raw> {
    match ReadOne(s)
    case Read(f, rest) => [f] + DecodeAll(rest)
    case _ => []
  }

  /** The frames of `fs` that lie whole within the first `n` bytes. */
  function Whole(fs: seq<Raw>, n: nat): (k: nat)
    requires AllSmall(fs)
    ensures k <= |fs|
  {
    if fs == [] || n < |Encode(fs[0])| then 0 else 1 + Whole(fs[1..], n - |Encode(fs[0])|)
  }

  /** Cut anywhere, a stream decodes to exactly the frames that arrived whole: none lost, none invented. */
  lemma {:induction false} CutStreamDecodes(fs: seq<Raw>, n: nat)
    requires AllSmall(fs) && n <= |EncodeAll(fs)|
    ensures DecodeAll(EncodeAll(fs)[..n]) == fs[..Whole(fs, n)]
  {
    hide Encode, ReadOne;
    if fs == [] {
      EmptyEnds();
    } else {
      var e, rest := Encode(fs[0]), EncodeAll(fs[1..]);
      if n < |e| {
        assert (e + rest)[..n] == e[..n];
        CutFrameEnds(fs[0], n);
      } else {
        assert (e + rest)[..n] == e + rest[..n - |e|];
        ReadsBackIff(fs[0], rest[..n - |e|]);
        CutStreamDecodes(fs[1..], n - |e|);
        assert fs[..Whole(fs, n)] == [fs[0]] + fs[1..][..Whole(fs[1..], n - |e|)];
      }
    }
  }

  lemma EmptyEnds()
    ensures ReadOne([]) == Ended
  {}

  lemma {:induction false} WholeAll(fs: seq<Raw>)
    requires AllSmall(fs)
    ensures Whole(fs, |EncodeAll(fs)|) == |fs|
  {
    if fs != [] { WholeAll(fs[1..]); }
  }

  /** The round trip: everything written and nothing else is read. */
  lemma StreamRoundTrip(fs: seq<Raw>)
    requires AllSmall(fs)
    ensures DecodeAll(EncodeAll(fs)) == fs
  {
    CutStreamDecodes(fs, |EncodeAll(fs)|);
    WholeAll(fs);
    assert EncodeAll(fs)[..|EncodeAll(fs)|] == EncodeAll(fs);
  }

  // ---------------------------------------------------------------- readFrame over a connection

  function Joined(chunks: seq<Bytes>): Bytes {
    if chunks == [] then [] else chunks[0] + Joined(chunks[1..])
  }

  /** The receiving side of a connection: the pieces in which the network will hand over the bytes. */
  class Inbound {
    var chunks: seq<Bytes>

    constructor (chunks: seq<Bytes>)
      ensures this.chunks == chunks
    {
      this.chunks := chunks;
    }

    ghost function Pending(): Bytes
      reads this
    {
      Joined(chunks)
    }

    /** conn.Read: some bytes of the next piece, at most `max`; `eof` when no piece is left. */
    method Receive(max: nat) returns (data: Bytes, eof: bool)
      requires max > 0
      modifies this
      ensures eof ==> old(Pending()) == [] && data == [] && chunks == old(chunks)
      ensures !eof ==> |data| <= max && old(Pending()) == data + Pending()
      ensures !eof ==> |chunks| < |old(chunks)| || (|chunks| == |old(chunks)| && |data| > 0)
    {
      if chunks == [] { return [], true; }
      if |chunks[0]| <= max {
        data, chunks := chunks[0], chunks[1..];
      } else {
        data := chunks[0][..max];
        ghost var was := chunks;
        chunks := [chunks[0][max..]] + chunks[1..];
        assert was[0] == data + chunks[0] && chunks[1..] == was[1..];
      }
      eof := false;
    }

    /** io.ReadFull: exactly `n` bytes, or as many as there are before the end. */
    method ReceiveFull(n: nat) returns (data: Bytes, ok: bool)
      modifies this
      ensures ok <==> n <= |old(Pending())|
      ensures ok ==> data == old(Pending())[..n] && Pending() == old(Pending())[n..]
      ensures !ok ==> data == old(Pending()) && Pending() == []
    {
      data := [];
      while |data| < n
        invariant |data| <= n && old(Pending()) == data + Pending()
        decreases n - |data|, |chunks|
      {
        var more, eof := Receive(n - |data|);
        if eof {
          return data, false;
        }
        data := data + more;
      }
      ok := true;
    }

    /** readFrame: its answer depends on the bytes alone, however they were cut into pieces. */
    method ReadFrame() returns (r: Reading)
      modifies this
      ensures var want := ReadOne(old(Pending()));
              && (want.Read? ==> r.Read? && r.frame == want.frame && Pending() == want.rest)
              && (want.Ended? ==> r == Ended)
              && (want.TooLarge? ==> r == TooLarge)
    {
      ghost var s := Pending();
      var header, ok := ReceiveFull(HEADER);
      if !ok { return Ended; }
      assert header[1..5] == s[1..5] && header[5..9] == s[5..9];
      var kind, channel, n := header[0], Un32(header[1..5]), Un32(header[5..9]);
      if n > MAX_FRAME { return TooLarge; }
      var payload: Bytes := [];
      if n > 0 {
        payload, ok := ReceiveFull(n);
        if !ok { return Ended; }
      }
      assert s[HEADER..][..n] == s[HEADER..HEADER + n] && s[HEADER..][n..] == s[HEADER + n..];
      r := Read(Raw(kind, channel, payload), []);
    }
  }

  // ---------------------------------------------------------------- writeFrame over a connection

  /** The sending side of a connection that breaks after `budget` more bytes. */
  class Outbound {
    var sent: Bytes
    var budget: nat

    constructor (budget: nat)
      ensures sent == [] && this.budget == budget
    {
      sent, this.budget := [], budget;
    }

    method Write(data: Bytes) returns (ok: bool)
      modifies this
      ensures ok <==> |data| <= old(budget)
      ensures sent == old(sent) + (if ok then data else data[..old(budget)])
      ensures budget == if ok then old(budget) - |data| else 0
    {
      ok := |data| <= budget;
      if ok {
        sent, budget := sent + data, budget - |data|;
      } else {
        sent, budget := sent + data[..budget], 0;
      }
    }

    /** writeFrame: the whole frame, or an error after a proper prefix of it. */
    method WriteFrame(f: Raw) returns (ok: bool)
      requires Framed(f)
      modifies this
      ensures ok <==> |Encode(f)| <= old(budget)
      ensures sent == old(sent) + (if ok then Encode(f) else Encode(f)[..old(budget)])
      ensures budget == if ok then old(budget) - |Encode(f)| else 0
    {
      var header := new Byte[HEADER](i => 0);
      header[0] := f.kind;
      PutUint32(header, 1, f.channel);
      PutUint32(header, 5, |f.payload|);
      assert header[..] == [f.kind] + Be32(f.channel) + Be32(|f.payload|);
      assert Encode(f) == header[..] + f.payload;
      ok := Write(header[..]);
      if !ok {
        assert Encode(f)[..old(budget)] == header[..][..old(budget)];
        return;
      }
      if |f.payload| > 0 {
        ok := Write(f.payload);
        if !ok {
          assert Encode(f)[..old(budget)] == header[..] + f.payload[..old(budget) - HEADER];
        }
      } else {
        assert Encode(f) == header[..];
      }
    }
  }

  function Min(a: nat, b: nat): nat { if a < b then a else b }

  /** A broken link: the peer decodes exactly the frames whose write was reported a success. */
  lemma BrokenLinkIsExact(fs: seq<Raw>, budget: nat)
    requires AllSmall(fs)
    ensures DecodeAll(EncodeAll(fs)[..Min(budget, |EncodeAll(fs)|)]) == fs[..Whole(fs, budget)]
  {
    CutStreamDecodes(fs, Min(budget, |EncodeAll(fs)|));
    if budget > |EncodeAll(fs)| {
      WholeAll(fs);
      WholeMonotone(fs, |EncodeAll(fs)|, budget);
    }
  }

  lemma {:induction false} WholeMonotone(fs: seq<Raw>, m: nat, n: nat)
    requires AllSmall(fs) && m <= n
    ensures Whole(fs, m) <= Whole(fs, n)
  {
    if fs != [] && m >= |Encode(fs[0])| { WholeMonotone(fs[1..], m - |Encode(fs[0])|, n - |Encode(fs[0])|); }
  }

  /** Writers use the link until it breaks and after. The writes that report success are the first `n`, and the peer
      decodes exactly their frames. */
  method WriteFrames(link: Outbound, fs: seq<Raw>) returns (oks: seq<bool>, n: nat)
    requires AllSmall(fs) && link.sent == []
    modifies link
    ensures |oks| == |fs| && n <= |fs|
    ensures forall i :: 0 <= i < |fs| ==> (oks[i] <==> i < n)
    ensures DecodeAll(link.sent) == fs[..n]
  {
    ghost var budget := link.budget;
    oks, n := [], 0;
    assert EncodeAll(fs[..0]) == [];
    for i := 0 to |fs|
      invariant |oks| == i && n <= i
      invariant forall k :: 0 <= k < i ==> (oks[k] <==> k < n)
      invariant n == Whole(fs[..i], budget)
      invariant link.sent == EncodeAll(fs[..i])[..Min(budget, |EncodeAll(fs[..i])|)]
      invariant link.budget == budget - |link.sent|
      invariant n < i ==> link.budget == 0
    {
      var before := fs[..i];
      assert fs[..i + 1] == before + [fs[i]];
      OneMore(before, fs[i], budget);
      hide Encode;
      var ok := link.WriteFrame(fs[i]);
      oks := oks + [ok];
      if ok { n := n + 1; }
    }
    assert fs[..|fs|] == fs;
    BrokenLinkIsExact(fs, budget);
  }

  /** The stream and its whole frames after one more frame. */
  lemma {:induction false} OneMore(fs: seq<Raw>, f: Raw, budget: nat)
    requires AllSmall(fs) && Small(f)
    ensures AllSmall(fs + [f]) && EncodeAll(fs + [f]) == EncodeAll(fs) + Encode(f)
    ensures Whole(fs + [f], budget) ==
            if Whole(fs, budget) == |fs| && |EncodeAll(fs)| + |Encode(f)| <= budget then |fs| + 1 else Whole(fs, budget)
    ensures Whole(fs, budget) == |fs| <==> |EncodeAll(fs)| <= budget
  {
    hide Encode;
    if fs == [] {
      assert fs + [f] == [f] && [f][1..] == [];
    } else {
      assert (fs + [f])[1..] == fs[1..] + [f];
      var n := |Encode(fs[0])|;
      if n <= budget {
        OneMore(fs[1..], f, budget - n);
      } else {
        OneMore(fs[1..], f, 0);
      }
    }
  }
}
