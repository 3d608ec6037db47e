/**
 * What the roles of Negotiation are for: that every data frame can be read by its reader, on every run of the link.
 * It fails for exactly one family of registrations, and for that family this is the run that fails.
 */
module StaleFeatures {
  import opened Options
  import opened RelayTypes
  import opened RelayMachine
  import opened RelayRuns
  import opened Negotiation
  import RelayTheorems

  /** If `f` is on a stream, its reader takes it: short enough, and unpacked if it is packed. */
  ghost predicate Readable(c: Config, w: World, f: Frame)
    requires f.Data? || f.Packed?
  {
    && (f in w.down.log ==> |f.payload| <= MAX_FRAME && Unpack(c.clientUnpacks, c.lz4, f).Some?)
    && (f in w.up.log ==> |f.payload| <= MAX_FRAME && Unpack(c.serverUnpacks, c.lz4, f).Some?)
  }

  ghost predicate AllReadable(c: Config) {
    forall ws: seq<World>, sts: seq<Step>, i: nat, f: Frame ::
      Run(c, ws, sts) && i < |ws| && (f.Data? || f.Packed?) ==> Readable(c, ws[i], f)
  }

  /** The codec has a use: some chunk that a pipe may read gets shorter. */
  ghost predicate Packs(z: Lz4) { exists chunk: Bytes :: Packable(z, chunk) }

  predicate Packable(z: Lz4, chunk: Bytes) { 0 < |chunk| <= TCP_CHUNK && z.compress(chunk).Some? }

  // ---------------------------------------------------------------- one connection, one packed chunk

  function Steps(chunk: Bytes): seq<Step> {
    [Admit, Number, Insert(1), Announce(1, true), ClientReceive, ClientDial(true), ClientCount, ClientReady(true),
     LocalRead(1, chunk), LocalWrite(1, true)]
  }

  /** An external connection arrives and is announced ... */
  function Arrived(c: Config): seq<World> {
    var w0 := Init();
    var w1 := WithAdmitted(c, w0);
    var w2 := WithNumbered(w1);
    var w3 := WithConn(w2, 1);
    var w4 := w3.(down := Send(w3.down, New(1, false), true),
                  srv := w3.srv.(accepting := w3.srv.accepting[1 := Announced], pipes := w3.srv.pipes[1 := Piping]));
    [w0, w1, w2, w3, w4]
  }

  /** ... the client dials the local service and reports ... */
  function Joined(w4: World): seq<World>
    requires w4.down.queue != [] && !w4.up.broken
  {
    var w5 := w4.(down := w4.down.(queue := w4.down.queue[1..]), cli := w4.cli.(reader := LDial(1, false)));
    var w6 := WithLocal(w5, 1, false);
    var w7 := Counted(w6, 1, false);
    var w8 := w7.(up := Send(w7.up, Ready(1), true),
                  cli := w7.cli.(reader := LIdle, pipes := w7.cli.pipes[1 := LocalPipe(false, LPiping)]));
    [w5, w6, w7, w8]
  }

  /** ... and the local service sends the chunk. */
  function Answered(c: Config, w8: World, chunk: Bytes): seq<World>
    requires 1 in w8.cli.pipes && !w8.up.broken
  {
    var w9 := w8.(loc := Fed(w8.loc, 1, chunk), cli := w8.cli.(pipes := Moved(w8.cli.pipes, 1, LGot(chunk))));
    var w10 := w9.(up := Send(w9.up, Pack(c.clientPacks, c.lz4, 1, chunk), true),
                   cli := w9.cli.(pipes := Moved(w9.cli.pipes, 1, LPiping)));
    [w9, w10]
  }

  lemma ArrivedRuns(c: Config, chunk: Bytes)
    ensures var ws := Arrived(c); forall i :: 0 <= i < 4 ==> Next(c, ws[i], Steps(chunk)[i], ws[i + 1])
    ensures Arrived(c)[4].down.queue == [New(1, false)] && !Arrived(c)[4].up.broken && Arrived(c)[4].cli == Init().cli
  {
    hide ClientNext, PipeNext, ReaderNext, PacketNext, CleanNext;
    var ws := Arrived(c);
    assert Next(c, ws[0], Steps(chunk)[0], ws[1]);
    assert Next(c, ws[1], Steps(chunk)[1], ws[2]);
    assert Next(c, ws[2], Steps(chunk)[2], ws[3]);
    assert Next(c, ws[3], Steps(chunk)[3], ws[4]);
  }

  lemma Dials(c: Config, w4: World, chunk: Bytes)
    requires w4.down.queue == [New(1, false)] && !w4.up.broken && w4.cli.reader == LIdle
    ensures Next(c, w4, Steps(chunk)[4], Joined(w4)[0])
    ensures Next(c, Joined(w4)[0], Steps(chunk)[5], Joined(w4)[1])
  {
    hide ServerNext, LocalNext;
  }

  lemma Reports(c: Config, w4: World, chunk: Bytes)
    requires w4.down.queue != [] && !w4.up.broken
    ensures Next(c, Joined(w4)[1], Steps(chunk)[6], Joined(w4)[2])
    ensures Next(c, Joined(w4)[2], Steps(chunk)[7], Joined(w4)[3])
    ensures var w8 := Joined(w4)[3];
            LocalAt(w8.cli.pipes, 1, LPiping) && !w8.cli.pipes[1].udp && !w8.up.broken && ConnAt(w8.loc, 1).open
  {
    hide ServerNext, LocalNext;
  }

  lemma JoinedRuns(c: Config, w4: World, chunk: Bytes)
    requires w4.down.queue == [New(1, false)] && !w4.up.broken && w4.cli.reader == LIdle
    ensures var ws := [w4] + Joined(w4); forall i :: 0 <= i < 4 ==> Next(c, ws[i], Steps(chunk)[4 + i], ws[i + 1])
    ensures var w8 := Joined(w4)[3];
            LocalAt(w8.cli.pipes, 1, LPiping) && !w8.cli.pipes[1].udp && !w8.up.broken && ConnAt(w8.loc, 1).open
  {
    hide Next;
    Dials(c, w4, chunk);
    Reports(c, w4, chunk);
  }

  lemma AnsweredRuns(c: Config, w8: World, chunk: Bytes)
    requires LocalAt(w8.cli.pipes, 1, LPiping) && !w8.cli.pipes[1].udp && !w8.up.broken && ConnAt(w8.loc, 1).open
    requires 0 < |chunk| <= TCP_CHUNK
    ensures var ws := [w8] + Answered(c, w8, chunk);
            forall i :: 0 <= i < 2 ==> Next(c, ws[i], Steps(chunk)[8 + i], ws[i + 1])
    ensures Pack(c.clientPacks, c.lz4, 1, chunk) in Answered(c, w8, chunk)[1].up.log
  {
    hide ServerNext, LoopNext;
    var ws := [w8] + Answered(c, w8, chunk);
    assert Next(c, ws[0], Steps(chunk)[8], ws[1]);
    assert Next(c, ws[1], Steps(chunk)[9], ws[2]);
    var log := ws[2].up.log;
    assert log[|log| - 1] == Pack(c.clientPacks, c.lz4, 1, chunk);
  }

  /** With any settings there is a run that sends the chunk up the link. */
  lemma ChunkGoesUp(c: Config, chunk: Bytes) returns (ws: seq<World>)
    requires 0 < |chunk| <= TCP_CHUNK
    ensures Run(c, ws, Steps(chunk)) && |ws| == 11 && Pack(c.clientPacks, c.lz4, 1, chunk) in ws[10].up.log
  {
    hide Next;
    ArrivedRuns(c, chunk);
    var w4 := Arrived(c)[4];
    JoinedRuns(c, w4, chunk);
    var w8 := Joined(w4)[3];
    AnsweredRuns(c, w8, chunk);
    ws := Arrived(c) + Joined(w4) + Answered(c, w8, chunk);
    var sts := Steps(chunk);
    forall i | 0 <= i < 10 ensures Next(c, ws[i], sts[i], ws[i + 1]) {
      if i < 4 {
        assert ws[i] == Arrived(c)[i] && ws[i + 1] == Arrived(c)[i + 1];
      } else if i < 8 {
        var js := [w4] + Joined(w4);
        assert ws[i] == js[i - 4] && ws[i + 1] == js[i - 4 + 1] && sts[i] == sts[4 + (i - 4)];
      } else {
        var bs := [w8] + Answered(c, w8, chunk);
        assert ws[i] == bs[i - 8] && ws[i + 1] == bs[i - 8 + 1] && sts[i] == sts[8 + (i - 8)];
      }
    }
  }

  // ---------------------------------------------------------------- the condition

  /** Every data frame of every run can be read, except exactly when a reused client trusts the answer of an earlier
      server and the present one cannot decompress. */
  lemma ReadableIff(m: Manager, compressor: bool, stale: bool, lz4: Lz4, maxConns: int)
    requires Lawful(lz4) && Packs(lz4)
    ensures AllReadable(Settled(m, compressor, stale, lz4, maxConns)) <==> !(compressor && stale && !m.CanDecompress())
  {
    var c := Settled(m, compressor, stale, lz4, maxConns);
    SoundIff(m, compressor, stale, lz4, maxConns);
    if compressor && stale && !m.CanDecompress() {
      var chunk: Bytes :| Packable(lz4, chunk);
      var ws := ChunkGoesUp(c, chunk);
      hide Run;
      var f := Pack(c.clientPacks, c.lz4, 1, chunk);
      assert f.Packed? && Unpack(c.serverUnpacks, c.lz4, f).None?;
      assert !Readable(c, ws[10], f);
    } else {
      hide Lawful, Run, Unpack, Sound;
      forall ws: seq<World>, sts: seq<Step>, i: nat, f: Frame | Run(c, ws, sts) && i < |ws| && (f.Data? || f.Packed?)
        ensures Readable(c, ws[i], f)
      {
        RelayTheorems.FramesAreReadable(c, ws, sts, i, f);
      }
    }
  }

  /** One client object, registered first with one server and then with another. */
  method RegisterTwice(first: Manager, second: Manager, compressor: bool, lz4: Lz4, maxConns: int) returns (c: Config)
    ensures c == Settled(second, compressor && first.CanDecompress(), first.CanDecompress(), lz4, maxConns)
    ensures Lawful(lz4) && Packs(lz4) ==>
              (AllReadable(c) <==> !(compressor && first.CanDecompress() && !second.CanDecompress()))
  {
    var client := new Negotiation.Client(compressor);
    c := client.Register(first, lz4, maxConns);
    c := client.Register(second, lz4, maxConns);
    if Lawful(lz4) && Packs(lz4) {
      ReadableIff(second, compressor && first.CanDecompress(), first.CanDecompress(), lz4, maxConns);
    }
  }
}
