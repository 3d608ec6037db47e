/** From end to end: what is handed over on a channel is what was read at its other end, in order. */
module RelayOrder {
  import opened Options
  import opened RelayTypes
  import opened RelayMachine
  import opened RelayInvariant
  import opened RelaySteps
  import opened RelayStreams
  import opened RelayRuns
  import opened RelayTheorems
  import opened RelayCarriage
  import opened RelayDelivery

  /** What a step hands over, given the frame read last. */
  function ServerHands(z: Lz4, st: Step, f: Option<Frame>, id: Id): seq<Bytes> {
    if (st.ServerWrite? || st.ServerPost?) && f.Some? && IsData(f.value, id) then [Plain(z, f.value)] else []
  }

  function ClientHands(z: Lz4, st: Step, f: Option<Frame>, id: Id): seq<Bytes> {
    if st.ClientWrite? && f.Some? && IsData(f.value, id) then [Plain(z, f.value)] else []
  }

  /** What the first `i` steps handed to the external connection or address of channel `id`. */
  function ServerHanded(z: Lz4, ws: seq<World>, sts: seq<Step>, i: nat, id: Id): seq<Bytes>
    requires i <= |sts| < |ws|
  {
    if i == 0 then []
    else ServerHanded(z, ws, sts, i - 1, id) + ServerHands(z, sts[i - 1], ServerTook(ws, sts, i - 1), id)
  }

  /** What they handed to its local connection. */
  function ClientHanded(z: Lz4, ws: seq<World>, sts: seq<Step>, i: nat, id: Id): seq<Bytes>
    requires i <= |sts| < |ws|
  {
    if i == 0 then []
    else ClientHanded(z, ws, sts, i - 1, id) + ClientHands(z, sts[i - 1], ClientTook(ws, sts, i - 1), id)
  }

  function ServerHeld(r: ServerReader, id: Id): seq<Bytes> {
    if (r.SData? || r.SWrite? || r.SPost?) && r.id == id then [r.data] else []
  }

  function ClientHeld(r: ClientReader, id: Id): seq<Bytes> {
    if (r.LData? || r.LWrite?) && r.id == id then [r.data] else []
  }

  /** All that was read for a listed channel is handed over; for a channel no longer listed, a beginning of it. */
  predicate ServerOrder(handed: seq<Bytes>, read: seq<Bytes>, r: ServerReader, listed: bool, id: Id) {
    && handed <= read
    && (listed ==> handed + ServerHeld(r, id) == read)
    && (r.SWrite? || r.SPost? ==> handed + ServerHeld(r, id) <= read)
  }

  predicate ClientOrder(handed: seq<Bytes>, read: seq<Bytes>, r: ClientReader, listed: bool, id: Id) {
    && handed <= read
    && (listed ==> handed + ClientHeld(r, id) == read)
    && (r.LWrite? ==> handed + ClientHeld(r, id) <= read)
    && (r.LDial? && r.id == id ==> read == [])
  }

  // ---------------------------------------------------------------- the server

  /** A channel enters the server's tables in two steps only. */
  predicate Lists(w: World, st: Step, id: Id) { st == Step.Insert(id) || (st.UdpInsert? && id == w.next + 1) }

  lemma ListedBefore(c: Config, w: World, st: Step, w': World, id: Id)
    requires Next(c, w, st, w') && OnServer(w', id) && !Lists(w, st, id)
    ensures OnServer(w, id)
  {
    hide AcceptNext, PipeNext, ReaderNext, PacketNext, CleanNext, ClientNext;
    if st.OtherDraw? || ClientStep(st) {
      StepMoves(c, w, st, w');
    } else if AcceptStep(st) {
      AcceptLists(c, w, st, w', id);
    } else if PipeStep(st) {
      PipeLists(c, w, st, w', id);
    } else if ReaderStep(st) {
      ReaderLists(c, w, st, w', id);
    } else if PacketStep(st) {
      PacketLists(c, w, st, w', id);
    } else {
      CleanLists(c, w, st, w', id);
    }
  }

  lemma AcceptLists(c: Config, w: World, st: Step, w': World, id: Id)
    requires AcceptNext(c, w, st, w') && OnServer(w', id) && !Lists(w, st, id)
    ensures OnServer(w, id)
  {
    hide Send, Shut, SessionIds;
  }

  lemma PipeLists(c: Config, w: World, st: Step, w': World, id: Id)
    requires PipeNext(c, w, st, w') && OnServer(w', id)
    ensures OnServer(w, id)
  {
    hide Send, Shut, Fed, Pack, ConnAt, SessionIds;
  }

  lemma ReaderLists(c: Config, w: World, st: Step, w': World, id: Id)
    requires ReaderNext(c, w, st, w') && OnServer(w', id)
    ensures OnServer(w, id)
  {
    hide Send, Shut, Writes, Unpack, UdpFree;
  }

  lemma PacketLists(c: Config, w: World, st: Step, w': World, id: Id)
    requires PacketNext(c, w, st, w') && OnServer(w', id) && !Lists(w, st, id)
    ensures OnServer(w, id)
  {
    hide Send, Pack, UdpFree;
  }

  lemma CleanLists(c: Config, w: World, st: Step, w': World, id: Id)
    requires CleanNext(c, w, st, w') && OnServer(w', id)
    ensures OnServer(w, id)
  {
    hide Send, UdpFree;
  }

  /** When a channel is listed, the client has sent nothing on it and the server handles nothing of it. */
  lemma UnheardWhenListed(c: Config, w: World, st: Step, w': World, id: Id)
    requires Inv(c, w) && Next(c, w, st, w') && Lists(w, st, id)
    ensures LocalOf(w.cli, id).pc == LUnstarted && ServerAt(w.srv.reader, id) == SIdle && !ReaderStep(st)
  {
    hide ClientNext, PipeNext, ReaderNext, CleanNext, Streams, Chunks, Send, Shut;
    assert Local(ViewOf(c.lz4, w, id));
    assert st.UdpInsert? ==> id !in w.srv.udpIds && id !in w.srv.accepting;
    assert st.Insert? ==> At(w.srv.accepting, id, Numbered);
  }

  lemma {:induction false} CarriedPrefix(z: Lz4, log: seq<Frame>, n: nat, id: Id)
    requires n <= |log|
    ensures Carried(z, log[..n], id) <= Carried(z, log, id)
  {
    if n < |log| {
      CarriedPrefix(z, log[..|log| - 1], n, id);
      assert log[..|log| - 1][..n] == log[..n];
    } else {
      assert log[..n] == log;
    }
  }

  lemma ReadIsCarried(z: Lz4, s: Stream, id: Id)
    requires Suffix(s)
    ensures Carried(z, ReadPart(s), id) <= Carried(z, s.log, id)
    ensures s.queue == [] ==> ReadPart(s) == s.log
  {
    CarriedPrefix(z, s.log, |s.log| - |s.queue|, id);
  }

  lemma ReadCarries(c: Config, w: World, st: Step, w': World, id: Id)
    requires Streams(c, w) && Next(c, w, st, w')
    ensures Carried(c.lz4, ReadPart(w'.up), id) == Carried(c.lz4, ReadPart(w.up), id) +
            if st.ServerReceive? && w.up.queue != [] && IsData(w.up.queue[0], id)
            then [Plain(c.lz4, w.up.queue[0])] else []
    ensures Carried(c.lz4, ReadPart(w'.down), id) == Carried(c.lz4, ReadPart(w.down), id) +
            if st.ClientReceive? && w.down.queue != [] && IsData(w.down.queue[0], id)
            then [Plain(c.lz4, w.down.queue[0])] else []
  {
    hide Streams, Next, Carried, ReadPart;
    ReadsMove(c, w, st, w');
    if st.ServerReceive? && w.up.queue != [] { CarriedSnoc(c.lz4, ReadPart(w.up), w.up.queue[0], id); }
    if st.ClientReceive? && w.down.queue != [] { CarriedSnoc(c.lz4, ReadPart(w.down), w.down.queue[0], id); }
    assert ReadPart(w.up) + [] == ReadPart(w.up) && ReadPart(w.down) + [] == ReadPart(w.down);
  }

  /** A write or post hands over what is held ... */
  lemma ServerGives(c: Config, w: World, st: Step, w': World, f: Option<Frame>, handed: seq<Bytes>, read: seq<Bytes>,
                    id: Id)
    requires Next(c, w, st, w') && (st.ServerWrite? || st.ServerPost?)
    requires f.Some? && ServerActsOn(c.lz4, f.value, w.srv.reader)
    requires ServerOrder(handed, read, w.srv.reader, OnServer(w, id), id)
    ensures ServerOrder(handed + ServerHands(c.lz4, st, f, id), read, w'.srv.reader, OnServer(w', id), id)
  {
    hide Next, Plain, OnServer, Holds;
    ReaderSteps(c, w, st, w');
    if OnServer(w', id) { ListedBefore(c, w, st, w', id); }
    assert ServerHands(c.lz4, st, f, id) == ServerHeld(w.srv.reader, id);
  }

  /** ... and any other step of the read loop keeps it, or drops it when the channel is not listed. */
  lemma ServerKeeps(c: Config, w: World, st: Step, w': World, handed: seq<Bytes>, read: seq<Bytes>, id: Id)
    requires Next(c, w, st, w') && ReaderStep(st) && !st.ServerReceive? && !st.ServerWrite? && !st.ServerPost?
    requires ServerOrder(handed, read, w.srv.reader, OnServer(w, id), id)
    ensures ServerOrder(handed, read, w'.srv.reader, OnServer(w', id), id)
  {
    hide Next, OnServer, Holds;
    ReaderSteps(c, w, st, w');
    if OnServer(w', id) { ListedBefore(c, w, st, w', id); }
    if st.ServerLookup? && w.srv.reader.id == id && w'.srv.reader != SIdle {
      FoundMeansListed(c, w, w');
    }
  }

  lemma FoundMeansListed(c: Config, w: World, w': World)
    requires Next(c, w, ServerLookup, w') && w'.srv.reader != SIdle
    ensures w.srv.reader.SData? && OnServer(w, w.srv.reader.id)
  {
    hide ClientNext, AcceptNext, PipeNext, PacketNext, CleanNext;
  }

  lemma ServerReads(c: Config, w: World, w': World, f: Option<Frame>, handed: seq<Bytes>, read: seq<Bytes>, id: Id)
    requires Inv(c, w) && Next(c, w, ServerReceive, w') && read == Carried(c.lz4, ReadPart(w.up), id)
    requires ServerOrder(handed, read, w.srv.reader, OnServer(w, id), id)
    ensures ServerOrder(handed + ServerHands(c.lz4, ServerReceive, f, id), Carried(c.lz4, ReadPart(w'.up), id),
                        w'.srv.reader, OnServer(w', id), id)
  {
    hide Ids, Chunks, Channels, Streams, Next, Plain, OnServer, Carried, ReadPart;
    ReceiveTakes(c, w, w');
    ReaderSteps(c, w, ServerReceive, w');
    ReadCarries(c, w, ServerReceive, w', id);
    if OnServer(w', id) { ListedBefore(c, w, ServerReceive, w', id); }
  }

  lemma ServerWaits(c: Config, w: World, st: Step, w': World, f: Option<Frame>, handed: seq<Bytes>, read: seq<Bytes>,
                    id: Id)
    requires Inv(c, w) && Next(c, w, st, w') && !ReaderStep(st) && read == Carried(c.lz4, ReadPart(w.up), id)
    requires ServerOrder(handed, read, w.srv.reader, OnServer(w, id), id)
    requires Lists(w, st, id) ==> read == []
    ensures ServerOrder(handed + ServerHands(c.lz4, st, f, id), Carried(c.lz4, ReadPart(w'.up), id),
                        w'.srv.reader, OnServer(w', id), id)
  {
    hide Ids, Chunks, Channels, Streams, Next, Plain, OnServer, Carried, ReadPart;
    StepMoves(c, w, st, w');
    ReadCarries(c, w, st, w', id);
    if Lists(w, st, id) {
      UnheardWhenListed(c, w, st, w', id);
    } else if OnServer(w', id) {
      ListedBefore(c, w, st, w', id);
    }
  }

  lemma HandsNothing(z: Lz4, st: Step, f: Option<Frame>, handed: seq<Bytes>, id: Id)
    ensures !st.ServerWrite? && !st.ServerPost? ==> handed + ServerHands(z, st, f, id) == handed
    ensures !st.ClientWrite? ==> handed + ClientHands(z, st, f, id) == handed
  {}

  lemma ServerNextOrder(c: Config, ws: seq<World>, sts: seq<Step>, i: nat, id: Id)
    requires Sound(c) && Run(c, ws, sts) && i < |sts|
    requires ServerOrder(ServerHanded(c.lz4, ws, sts, i, id), Carried(c.lz4, ReadPart(ws[i].up), id),
                         ws[i].srv.reader, OnServer(ws[i], id), id)
    ensures ServerOrder(ServerHanded(c.lz4, ws, sts, i + 1, id), Carried(c.lz4, ReadPart(ws[i + 1].up), id),
                        ws[i + 1].srv.reader, OnServer(ws[i + 1], id), id)
  {
    var w, st, w', f := ws[i], sts[i], ws[i + 1], ServerTook(ws, sts, i);
    var handed, read := ServerHanded(c.lz4, ws, sts, i, id), Carried(c.lz4, ReadPart(ws[i].up), id);
    assert Next(c, w, st, w');
    assert ServerHanded(c.lz4, ws, sts, i + 1, id) == handed + ServerHands(c.lz4, st, f, id);
    hide Next, Run, Carried, ReadPart, ServerHands, OnServer, ServerTook, ServerHanded, ServerOrder;
    RunGood(c, ws, sts, i);
    if st.ServerReceive? {
      hide Inv;
      ServerReads(c, w, w', f, handed, read, id);
    } else if ReaderStep(st) {
      StartsBusy(c, w, st, w');
      ServerActs(c, ws, sts, i);
      ReadCarries(c, w, st, w', id);
      hide Inv;
      assert read + [] == read;
      if st.ServerWrite? || st.ServerPost? {
        ServerGives(c, w, st, w', f, handed, read, id);
      } else {
        assert handed + ServerHands(c.lz4, st, f, id) == handed by { HandsNothing(c.lz4, st, f, handed, id); }
        ServerKeeps(c, w, st, w', handed, read, id);
      }
    } else {
      if Lists(w, st, id) {
        UnheardWhenListed(c, w, st, w', id);
        LocalsCarry(c, ws, sts, i, id);
        ReadIsCarried(c.lz4, w.up, id);
      }
      hide Inv;
      ServerWaits(c, w, st, w', f, handed, read, id);
    }
  }

  lemma ServerStarts(c: Config, ws: seq<World>, sts: seq<Step>, id: Id)
    requires Run(c, ws, sts)
    ensures ServerOrder(ServerHanded(c.lz4, ws, sts, 0, id), Carried(c.lz4, ReadPart(ws[0].up), id),
                        ws[0].srv.reader, OnServer(ws[0], id), id)
  {
    hide Next;
  }

  /** What the server hands over on a channel is what the frames it read carry, in order: all of it while the channel
      is listed, and a beginning of it ever after. */
  lemma {:induction false} ServerHandsInOrder(c: Config, ws: seq<World>, sts: seq<Step>, i: nat, id: Id)
    requires Sound(c) && Run(c, ws, sts) && i < |ws|
    ensures ServerOrder(ServerHanded(c.lz4, ws, sts, i, id), Carried(c.lz4, ReadPart(ws[i].up), id),
                        ws[i].srv.reader, OnServer(ws[i], id), id)
  {
    hide *;
    RunLength(c, ws, sts);
    if i == 0 {
      ServerStarts(c, ws, sts, id);
    } else {
      ServerHandsInOrder(c, ws, sts, i - 1, id);
      ServerNextOrder(c, ws, sts, i - 1, id);
    }
  }

  // ---------------------------------------------------------------- the client

  lemma ClientListedBefore(c: Config, w: World, st: Step, w': World, id: Id)
    requires Next(c, w, st, w') && OnClient(w', id)
    requires !(st == ClientDial(true) && w.cli.reader.LDial? && w.cli.reader.id == id)
    ensures OnClient(w, id)
  {
    if LocalStep(st) {
      hide ServerNext, LoopNext, Send, Shut, Fed, Pack, ConnAt;
    } else if LoopStep(st) {
      hide ServerNext, LocalNext, Send, Shut, Writes, Unpack;
    } else {
      hide Next;
      StepMoves(c, w, st, w');
    }
  }

  /** An announcement is the first thing about its channel that is read. */
  lemma NothingBefore(z: Lz4, s: Stream, udpIds: set<Id>)
    requires Suffix(s) && NewsOnce(s.log, udpIds) && NewsFirst(s.log) && s.queue != [] && s.queue[0].New?
    ensures Carried(z, ReadPart(s), s.queue[0].id) == []
  {
    var p, id := |s.log| - |s.queue|, s.queue[0].id;
    assert s.log[p] == s.queue[0];
    var read := s.log[..p];
    forall j | 0 <= j < p && (read[j].Data? || read[j].Packed? || read[j].Close?)
      ensures HasNew(read[..j], read[j].id)
    {
      assert read[..j] == s.log[..j] && read[j] == s.log[j];
    }
    assert forall k :: 0 <= k < p && read[k].New? ==> s.log[k].New? && s.log[k].id != id;
    NothingCarried(z, read, id);
  }

  lemma ClientReads(c: Config, w: World, w': World, f: Option<Frame>, handed: seq<Bytes>, read: seq<Bytes>, id: Id)
    requires Inv(c, w) && Next(c, w, ClientReceive, w') && read == Carried(c.lz4, ReadPart(w.down), id)
    requires ClientOrder(handed, read, w.cli.reader, OnClient(w, id), id)
    ensures ClientOrder(handed + ClientHands(c.lz4, ClientReceive, f, id), Carried(c.lz4, ReadPart(w'.down), id),
                        w'.cli.reader, OnClient(w', id), id)
  {
    hide Ids, Chunks, Channels, Next, Plain, OnClient, Carried, ReadPart, Suffix, NewsOnce, NewsFirst;
    ReceiveIsTaken(c, w, w');
    LoopSteps(c, w, ClientReceive, w');
    ReadCarries(c, w, ClientReceive, w', id);
    if OnClient(w', id) { ClientListedBefore(c, w, ClientReceive, w', id); }
    if w.down.queue[0].New? { NothingBefore(c.lz4, w.down, w.srv.udpIds); }
    hide Streams;
  }

  lemma ClientGives(c: Config, w: World, st: Step, w': World, f: Option<Frame>, handed: seq<Bytes>, read: seq<Bytes>,
                    id: Id)
    requires Next(c, w, st, w') && st.ClientWrite?
    requires f.Some? && ClientActsOn(c.lz4, f.value, w.cli.reader)
    requires ClientOrder(handed, read, w.cli.reader, OnClient(w, id), id)
    ensures ClientOrder(handed + ClientHands(c.lz4, st, f, id), read, w'.cli.reader, OnClient(w', id), id)
  {
    hide Next, Plain, OnClient;
    LoopSteps(c, w, st, w');
    if OnClient(w', id) { ClientListedBefore(c, w, st, w', id); }
    assert ClientHands(c.lz4, st, f, id) == ClientHeld(w.cli.reader, id);
  }

  /** Any other step keeps what is held; a channel is listed when nothing of it has been read. */
  lemma ClientKeeps(c: Config, w: World, st: Step, w': World, handed: seq<Bytes>, read: seq<Bytes>, id: Id)
    requires Next(c, w, st, w') && LoopStep(st) && !st.ClientReceive? && !st.ClientWrite?
    requires ClientOrder(handed, read, w.cli.reader, OnClient(w, id), id)
    ensures ClientOrder(handed, read, w'.cli.reader, OnClient(w', id), id)
  {
    hide Next, OnClient;
    LoopSteps(c, w, st, w');
    if OnClient(w', id) && !(st == ClientDial(true) && w.cli.reader.LDial? && w.cli.reader.id == id) {
      ClientListedBefore(c, w, st, w', id);
    }
  }

  lemma ClientWaits(c: Config, w: World, st: Step, w': World, handed: seq<Bytes>, read: seq<Bytes>, id: Id)
    requires Next(c, w, st, w') && !LoopStep(st)
    requires ClientOrder(handed, read, w.cli.reader, OnClient(w, id), id)
    ensures ClientOrder(handed, read, w'.cli.reader, OnClient(w', id), id)
  {
    ReaderStays(c, w, st, w');
    hide Next, OnClient;
    if OnClient(w', id) { ClientListedBefore(c, w, st, w', id); }
  }

  lemma ReaderStays(c: Config, w: World, st: Step, w': World)
    requires Next(c, w, st, w') && !LoopStep(st)
    ensures w'.cli.reader == w.cli.reader
  {
    if LocalStep(st) {
      hide ServerNext, LoopNext, Send, Shut, Fed, Pack, ConnAt, Moved;
    } else {
      hide Next;
      StepMoves(c, w, st, w');
    }
  }

  lemma ClientStarts(c: Config, ws: seq<World>, sts: seq<Step>, id: Id)
    requires Run(c, ws, sts)
    ensures ClientOrder(ClientHanded(c.lz4, ws, sts, 0, id), Carried(c.lz4, ReadPart(ws[0].down), id),
                        ws[0].cli.reader, OnClient(ws[0], id), id)
  {
    hide Next;
  }

  lemma ClientNextOrder(c: Config, ws: seq<World>, sts: seq<Step>, i: nat, id: Id)
    requires Sound(c) && Run(c, ws, sts) && i < |sts|
    requires ClientOrder(ClientHanded(c.lz4, ws, sts, i, id), Carried(c.lz4, ReadPart(ws[i].down), id),
                         ws[i].cli.reader, OnClient(ws[i], id), id)
    ensures ClientOrder(ClientHanded(c.lz4, ws, sts, i + 1, id), Carried(c.lz4, ReadPart(ws[i + 1].down), id),
                        ws[i + 1].cli.reader, OnClient(ws[i + 1], id), id)
  {
    var w, st, w', f := ws[i], sts[i], ws[i + 1], ClientTook(ws, sts, i);
    var handed, read := ClientHanded(c.lz4, ws, sts, i, id), Carried(c.lz4, ReadPart(ws[i].down), id);
    assert Next(c, w, st, w');
    assert ClientHanded(c.lz4, ws, sts, i + 1, id) == handed + ClientHands(c.lz4, st, f, id);
    hide Next, Run, Carried, ReadPart, ClientHands, OnClient, ClientTook, ClientHanded, ClientOrder;
    RunGood(c, ws, sts, i);
    HandsNothing(c.lz4, st, f, handed, id);
    if st.ClientReceive? {
      hide Inv;
      ClientReads(c, w, w', f, handed, read, id);
    } else {
      ReadCarries(c, w, st, w', id);
      hide Inv;
      assert read + [] == read;
      if st.ClientWrite? {
        ClientBusy(c, w, st, w');
        ClientActs(c, ws, sts, i);
        ClientGives(c, w, st, w', f, handed, read, id);
      } else if LoopStep(st) {
        ClientKeeps(c, w, st, w', handed, read, id);
      } else {
        ClientWaits(c, w, st, w', handed, read, id);
      }
    }
  }

  lemma ClientBusy(c: Config, w: World, st: Step, w': World)
    requires Next(c, w, st, w') && st.ClientWrite?
    ensures w.cli.reader != LIdle
  {
    hide Next;
    LoopSteps(c, w, st, w');
  }

  /** What the client hands over on a channel is what the frames it read carry, in order: all of it while the channel
      is listed, and a beginning of it ever after. */
  lemma {:induction false} ClientHandsInOrder(c: Config, ws: seq<World>, sts: seq<Step>, i: nat, id: Id)
    requires Sound(c) && Run(c, ws, sts) && i < |ws|
    ensures ClientOrder(ClientHanded(c.lz4, ws, sts, i, id), Carried(c.lz4, ReadPart(ws[i].down), id),
                        ws[i].cli.reader, OnClient(ws[i], id), id)
  {
    hide *;
    RunLength(c, ws, sts);
    if i == 0 {
      ClientStarts(c, ws, sts, id);
    } else {
      ClientHandsInOrder(c, ws, sts, i - 1, id);
      ClientNextOrder(c, ws, sts, i - 1, id);
    }
  }

  // ---------------------------------------------------------------- from end to end

  /** The datagrams handed to the local service of a session are the first ones that came from the address holding its
      id, in order of arrival, each once. */
  lemma DatagramsArrive(c: Config, ws: seq<World>, sts: seq<Step>, i: nat, id: Id)
    requires Sound(c) && Run(c, ws, sts) && i < |ws| && id in ws[i].srv.udpIds
    ensures ClientHanded(c.lz4, ws, sts, i, id) <= Arrivals(ws, sts, i, id)
    ensures id in ws[i].cli.udpChannels && Quiet(ws[i]) && ws[i].srv.udpReader == UIdle
            ==> ClientHanded(c.lz4, ws, sts, i, id) == Arrivals(ws, sts, i, id)
  {
    hide Run, Carried, ReadPart, ClientHanded, Arrivals, Streams, Ids, Channels, Chunks;
    RunGood(c, ws, sts, i);
    ClientHandsInOrder(c, ws, sts, i, id);
    SessionsCarry(c, ws, sts, i, id);
    DownIsSuffix(c, ws[i]);
    ReadIsCarried(c.lz4, ws[i].down, id);
  }

  lemma DownIsSuffix(c: Config, w: World)
    requires Streams(c, w)
    ensures Suffix(w.down) && Suffix(w.up)
  {}

  /** Likewise the chunks of a TCP channel, read by its pipe on the server. */
  lemma ChunksArrive(c: Config, ws: seq<World>, sts: seq<Step>, i: nat, id: Id)
    requires Sound(c) && Run(c, ws, sts) && i < |ws| && id !in ws[i].srv.udpIds
    ensures ClientHanded(c.lz4, ws, sts, i, id) <= PipeReads(sts, i, id)
    ensures id in ws[i].cli.channels && Quiet(ws[i]) && PipeAt(ws[i].srv.pipes, id, Piping)
            ==> ClientHanded(c.lz4, ws, sts, i, id) == PipeReads(sts, i, id)
  {
    hide Run, Carried, ReadPart, ClientHanded, PipeReads, Streams, Ids, Channels, Chunks;
    RunGood(c, ws, sts, i);
    ClientHandsInOrder(c, ws, sts, i, id);
    PipesCarry(c, ws, sts, i, id);
    DownIsSuffix(c, ws[i]);
    ReadIsCarried(c.lz4, ws[i].down, id);
  }

  /** And towards the server, for both kinds of channel. */
  lemma RepliesArrive(c: Config, ws: seq<World>, sts: seq<Step>, i: nat, id: Id)
    requires Sound(c) && Run(c, ws, sts) && i < |ws|
    ensures ServerHanded(c.lz4, ws, sts, i, id) <= LocalReads(sts, i, id)
    ensures OnServer(ws[i], id) && Quiet(ws[i]) && LocalAt(ws[i].cli.pipes, id, LPiping)
            ==> ServerHanded(c.lz4, ws, sts, i, id) == LocalReads(sts, i, id)
  {
    hide Run, Carried, ReadPart, ServerHanded, LocalReads, Streams, Ids, Channels, Chunks, OnServer;
    RunGood(c, ws, sts, i);
    ServerHandsInOrder(c, ws, sts, i, id);
    LocalsCarry(c, ws, sts, i, id);
    DownIsSuffix(c, ws[i]);
    ReadIsCarried(c.lz4, ws[i].up, id);
  }
}
