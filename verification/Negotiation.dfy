/** Which side may pack and which side can unpack, as registration settles it from the two feature lists. */
module Negotiation {
  import opened RelayTypes
  import opened RelayMachine
  import opened RelayRuns
  import RelayTheorems

  const COMPRESSION := "compression"

  /** The compression half of the server's plugin manager: which plugins are set. */
  datatype Manager = Manager(compressor: bool, decompressor: bool)
  {
    predicate HasCompressor() { compressor }
    predicate CanDecompress() { compressor || decompressor }
  }

  /** The loop of clientSupportsCompression, and of Connect over the server's answer. */
  method Supports(features: seq<string>) returns (found: bool)
    ensures found <==> COMPRESSION in features
  {
    for i := 0 to |features|
      invariant COMPRESSION !in features[..i]
    {
      if features[i] == COMPRESSION { return true; }
    }
    return false;
  }

  /** What handleRelayClient announces in its ok message. */
  method ServerFeatures(m: Manager) returns (features: seq<string>)
    ensures COMPRESSION in features <==> m.CanDecompress()
  {
    features := [];
    if m.HasCompressor() || m.CanDecompress() { features := features + [COMPRESSION]; }
  }

  class Client {
    var compressor: bool
    var serverSupportsCompression: bool

    constructor (compressor: bool)
      ensures this.compressor == compressor && !serverSupportsCompression
    {
      this.compressor, serverSupportsCompression := compressor, false;
    }

    method Announce() returns (features: seq<string>)
      ensures COMPRESSION in features <==> compressor
    {
      features := [];
      if compressor { features := features + [COMPRESSION]; }
    }

    /** The flag is only ever set; without it the compressor is dropped. */
    method Accept(features: seq<string>)
      modifies this
      ensures serverSupportsCompression <==> old(serverSupportsCompression) || COMPRESSION in features
      ensures compressor <==> old(compressor) && serverSupportsCompression
    {
      var found := Supports(features);
      if found { serverSupportsCompression := true; }
      if compressor && !serverSupportsCompression { compressor := false; }
    }

    /** One registration. The server packs when it has a compressor and the client announced one; the client
        unpacks when it still has a compressor; the client packs when it also believes the server can unpack. */
    method Register(m: Manager, lz4: Lz4, maxConns: int) returns (c: Config)
      modifies this
      ensures c == Settled(m, old(compressor), old(serverSupportsCompression), lz4, maxConns)
      ensures c.serverPacks <==> m.compressor && old(compressor)
      ensures c.serverUnpacks <==> m.compressor || m.decompressor
      ensures c.clientUnpacks <==>
                old(compressor) && (old(serverSupportsCompression) || m.compressor || m.decompressor)
      ensures c.clientPacks <==>
                old(compressor) && (old(serverSupportsCompression) || m.compressor || m.decompressor)
      ensures c.lz4 == lz4 && c.maxConns == maxConns
      ensures serverSupportsCompression <==> old(serverSupportsCompression) || m.CanDecompress()
      ensures compressor <==> old(compressor) && serverSupportsCompression
    {
      var announced := Announce();
      var answered := ServerFeatures(m);
      Accept(answered);
      var supports := Supports(announced);
      c := Config(lz4, m.HasCompressor() && supports, compressor,
                  compressor && serverSupportsCompression, m.CanDecompress(), maxConns);
    }
  }

  /** The settled roles; `stale` is the flag left by an earlier registration of the same Client. */
  function Settled(m: Manager, compressor: bool, stale: bool, lz4: Lz4, maxConns: int): Config {
    var keeps := compressor && (stale || m.CanDecompress());
    Config(lz4, m.compressor && compressor, keeps, keeps, m.CanDecompress(), maxConns)
  }

  /** Nobody is sent a packed frame it cannot unpack, unless a reused client trusts the answer of an earlier
      server and the present one cannot unpack. */
  lemma SoundIff(m: Manager, compressor: bool, stale: bool, lz4: Lz4, maxConns: int)
    requires Lawful(lz4)
    ensures Sound(Settled(m, compressor, stale, lz4, maxConns)) <==> !(compressor && stale && !m.CanDecompress())
  {
    hide Lawful;
  }

  /** After any first registration, on every run of the link, no data frame is dropped by its reader. */
  lemma NegotiatedFramesAreReadable(m: Manager, compressor: bool, lz4: Lz4, maxConns: int,
      ws: seq<World>, sts: seq<Step>, i: nat, f: Frame)
    requires Lawful(lz4)
    requires Run(Settled(m, compressor, false, lz4, maxConns), ws, sts) && i < |ws| && (f.Data? || f.Packed?)
    ensures var c := Settled(m, compressor, false, lz4, maxConns);
            && (f in ws[i].down.log ==> |f.payload| <= MAX_FRAME && Unpack(c.clientUnpacks, lz4, f).Some?)
            && (f in ws[i].up.log ==> |f.payload| <= MAX_FRAME && Unpack(c.serverUnpacks, lz4, f).Some?)
  {
    SoundIff(m, compressor, false, lz4, maxConns);
    hide Sound, Run, Unpack;
    RelayTheorems.FramesAreReadable(Settled(m, compressor, false, lz4, maxConns), ws, sts, i, f);
  }
}
