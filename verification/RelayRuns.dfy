/** The invariant over whole runs, and what it means for the two tables, the streams and the limiter. */
module RelayRuns {
  import opened RelayTypes
  import opened RelayMachine
  import opened RelayInvariant
  import opened RelayLocal
  import opened RelaySteps
  import opened RelayStreams
  import opened RelayCounts

  ghost predicate Good(c: Config, w: World) {
    Inv(c, w) && Conserved(c, w.srv) && Booked(w.cli)
  }

  /** The view of a channel that nobody has heard of. */
  const NOBODY: View :=
    View(ServerView(Unseen, false, false, Unstarted, false, false, SIdle),
         Wire(false, false, false, false, false, [], false), Wire(false, false, false, false, false, [], false),
         ClientView(LIdle, false, false, LUnstarted, false), NOCONN, NOCONN)

  lemma NobodyIsLocal()
    ensures Local(NOBODY)
  {}

  lemma InitViews(z: Lz4, id: Id)
    ensures ViewOf(z, Init(), id) == NOBODY
  {
    assert Init().srv.sessions == map[];
  }

  lemma InitChannels(c: Config)
    ensures Channels(c, Init())
  {
    hide Local, ViewOf;
    NobodyIsLocal();
    forall id ensures Local(ViewOf(c.lz4, Init(), id)) {
      InitViews(c.lz4, id);
    }
  }

  lemma InitIds()
    ensures Ids(Init()) && Chunks(Init())
  {}

  lemma InitStreams(c: Config)
    ensures Streams(c, Init())
  {}

  lemma InitGood(c: Config)
    ensures Good(c, Init())
  {
    hide Channels, Conserved, Booked, Ids, Chunks, Streams, Init;
    InitIds();
    InitStreams(c);
    InitChannels(c);
    InitCounts(c);
  }

  lemma InitCounts(c: Config)
    ensures Conserved(c, Init().srv) && Booked(Init().cli)
  {
    var s := Init().srv;
    assert AcceptsAt(s.accepting, Numbered) == {} && AcceptsAt(s.accepting, Dropped) == {};
    assert PipesAt(s.pipes, Releasing) == {};
  }

  lemma AcceptChannels(c: Config, w: World, st: Step, w': World)
    requires Inv(c, w) && Sound(c) && AcceptNext(c, w, st, w')
    ensures Channels(c, w')
  {
    hide Channels, Ids, Streams, Chunks, Local, Sound;
    hide DoAdmit, DoNumber, DoInsert, DoAnnounce, DoDropFailed, DoReleaseFailed;
    match st
    case Admit => AdmitKeeps(c, w, w');
    case Number => NumberKeeps(c, w, w');
    case Insert(id) => InsertKeeps(c, w, id, w');
    case Announce(id, ok) => AnnounceKeeps(c, w, id, ok, w');
    case DropFailed(id) => DropFailedKeeps(c, w, id, w');
    case ReleaseFailed(id) => ReleaseFailedKeeps(c, w, id, w');
  }

  lemma PipeChannels(c: Config, w: World, st: Step, w': World)
    requires Inv(c, w) && Sound(c) && PipeNext(c, w, st, w')
    ensures Channels(c, w')
  {
    hide Channels, Ids, Streams, Chunks, Local, Sound;
    hide DoPipeRead, DoPipeWrite, DoPipeEof, DoPipeClose, DoPipeRemove, DoPipeRelease;
    match st
    case PipeRead(id, chunk) => PipeReadKeeps(c, w, id, chunk, w');
    case PipeWrite(id, ok) => PipeWriteKeeps(c, w, id, ok, w');
    case PipeEof(id) => PipeEofKeeps(c, w, id, w');
    case PipeClose(id, ok) => PipeCloseKeeps(c, w, id, ok, w');
    case PipeRemove(id) => PipeRemoveKeeps(c, w, id, w');
    case PipeRelease(id) => PipeReleaseKeeps(c, w, id, w');
  }

  lemma ReaderChannels(c: Config, w: World, st: Step, w': World)
    requires Inv(c, w) && Sound(c) && ReaderNext(c, w, st, w')
    ensures Channels(c, w')
  {
    hide Channels, Ids, Streams, Chunks, Local, Sound;
    hide DoServerReceive, DoServerPong, DoServerCloseTcp, DoServerRelease, DoServerCloseUdp, DoServerReleaseUdp,
         DoServerLookup, DoServerWrite, DoServerPost;
    match st
    case ServerReceive => ServerReceiveKeeps(c, w, w');
    case ServerPong(ok) => ServerPongKeeps(c, w, ok, w');
    case ServerCloseTcp => ServerCloseTcpKeeps(c, w, w');
    case ServerRelease => ServerReleaseKeeps(c, w, w');
    case ServerCloseUdp => ServerCloseUdpKeeps(c, w, w');
    case ServerReleaseUdp => ServerReleaseUdpKeeps(c, w, w');
    case ServerLookup => ServerLookupKeeps(c, w, w');
    case ServerWrite(n, ok) => ServerWriteKeeps(c, w, n, ok, w');
    case ServerPost => ServerPostKeeps(c, w, w');
  }

  lemma PacketChannels(c: Config, w: World, st: Step, w': World)
    requires Inv(c, w) && Sound(c) && PacketNext(c, w, st, w')
    ensures Channels(c, w')
  {
    hide Channels, Ids, Streams, Chunks, Local, Sound;
    hide DoUdpHit, DoUdpAdmit, DoUdpInsert, DoUdpAnnounce, DoUdpWrite;
    match st
    case UdpHit(key, data) => UdpHitKeeps(c, w, key, data, w');
    case UdpAdmit(key, data) => UdpAdmitKeeps(c, w, key, data, w');
    case UdpInsert => UdpInsertKeeps(c, w, w');
    case UdpAnnounce(ok) => UdpAnnounceKeeps(c, w, ok, w');
    case UdpWrite(ok) => UdpWriteKeeps(c, w, ok, w');
  }

  lemma CleanChannels(c: Config, w: World, st: Step, w': World)
    requires Inv(c, w) && Sound(c) && CleanNext(c, w, st, w')
    ensures Channels(c, w')
  {
    hide Channels, Ids, Streams, Chunks, Local, Sound;
    hide DoCleanLock, DoCleanClose, DoCleanRelease, DoCleanDelete, DoCleanUnlock;
    match st
    case CleanLock => CleanLockKeeps(c, w, w');
    case CleanClose(key, ok) => CleanCloseKeeps(c, w, key, ok, w');
    case CleanRelease => CleanReleaseKeeps(c, w, w');
    case CleanDelete => CleanDeleteKeeps(c, w, w');
    case CleanUnlock => CleanUnlockKeeps(c, w, w');
  }

  lemma ClientChannels(c: Config, w: World, st: Step, w': World)
    requires Inv(c, w) && Sound(c) && LoopNext(c, w, st, w')
    ensures Channels(c, w')
  {
    hide Channels, Ids, Streams, Chunks, Local, Sound;
    hide DoClientReceive, DoClientPing, DoClientDial, DoClientDialClose, DoClientCount, DoClientReady,
         DoClientClose, DoClientLookup, DoClientWrite;
    match st
    case ClientReceive => ClientReceiveKeeps(c, w, w');
    case ClientPing(ok) => ClientPingKeeps(c, w, ok, w');
    case ClientDial(ok) => ClientDialKeeps(c, w, ok, w');
    case ClientDialClose(ok) => ClientDialCloseKeeps(c, w, ok, w');
    case ClientCount => ClientCountKeeps(c, w, w');
    case ClientReady(ok) => ClientReadyKeeps(c, w, ok, w');
    case ClientClose => ClientCloseKeeps(c, w, w');
    case ClientLookup => ClientLookupKeeps(c, w, w');
    case ClientWrite(n, ok) => ClientWriteKeeps(c, w, n, ok, w');
  }

  lemma LocalChannels(c: Config, w: World, st: Step, w': World)
    requires Inv(c, w) && Sound(c) && LocalNext(c, w, st, w')
    ensures Channels(c, w')
  {
    hide Channels, Ids, Streams, Chunks, Local, Sound;
    hide DoLocalRead, DoLocalWrite, DoLocalExit, DoLocalClose, DoLocalRemove, DoLocalShut;
    match st
    case LocalRead(id, chunk) => LocalReadKeeps(c, w, id, chunk, w');
    case LocalWrite(id, ok) => LocalWriteKeeps(c, w, id, ok, w');
    case LocalExit(id) => LocalExitKeeps(c, w, id, w');
    case LocalClose(id, ok) => LocalCloseKeeps(c, w, id, ok, w');
    case LocalRemove(id) => LocalRemoveKeeps(c, w, id, w');
    case LocalShut(id) => LocalShutKeeps(c, w, id, w');
  }

  lemma ChannelsKept(c: Config, w: World, st: Step, w': World)
    requires Inv(c, w) && Sound(c) && Next(c, w, st, w')
    ensures Channels(c, w')
  {
    hide Channels, Ids, Streams, Chunks, Local, Sound, DoOtherDraw;
    hide AcceptNext, PipeNext, ReaderNext, PacketNext, CleanNext, LoopNext, LocalNext;
    if st.OtherDraw? {
      OtherDrawKeeps(c, w, w');
    } else if LocalStep(st) {
      LocalChannels(c, w, st, w');
    } else if LoopStep(st) {
      ClientChannels(c, w, st, w');
    } else if AcceptStep(st) {
      AcceptChannels(c, w, st, w');
    } else if PipeStep(st) {
      PipeChannels(c, w, st, w');
    } else if ReaderStep(st) {
      ReaderChannels(c, w, st, w');
    } else if PacketStep(st) {
      PacketChannels(c, w, st, w');
    } else {
      CleanChannels(c, w, st, w');
    }
  }

  lemma InvKept(c: Config, w: World, st: Step, w': World)
    requires Inv(c, w) && Sound(c) && Next(c, w, st, w')
    ensures Inv(c, w')
  {
    hide Channels, Ids, Streams, Chunks, Local, Sound, Next;
    IdsKept(c, w, st, w');
    ChunksKept(c, w, st, w');
    StreamsKept(c, w, st, w');
    ChannelsKept(c, w, st, w');
  }

  lemma ConservedKept(c: Config, w: World, st: Step, w': World)
    requires Inv(c, w) && Conserved(c, w.srv) && Next(c, w, st, w')
    ensures Conserved(c, w'.srv)
  {
    hide Channels, Ids, Streams, Chunks, Local, Conserved;
    hide AcceptNext, PipeNext, ReaderNext, PacketNext, CleanNext, ClientNext;
    if st.OtherDraw? || ClientStep(st) {
      StepMoves(c, w, st, w');
    } else if AcceptStep(st) {
      AcceptConserves(c, w, st, w');
    } else if PipeStep(st) {
      PipeConserves(c, w, st, w');
    } else if ReaderStep(st) {
      ReaderConserves(c, w, st, w');
    } else if PacketStep(st) {
      UdpConserves(c, w, st, w');
    } else {
      CleanConserves(c, w, st, w');
    }
  }

  lemma BookedKept(c: Config, w: World, st: Step, w': World)
    requires Channels(c, w) && Booked(w.cli) && Next(c, w, st, w')
    ensures Booked(w'.cli)
  {
    hide Channels, Local, Booked, LoopNext, LocalNext, ServerNext;
    if LocalStep(st) {
      PipeBooks(c, w, st, w');
    } else if LoopStep(st) {
      ReadLoopBooks(c, w, st, w');
    } else {
      StepMoves(c, w, st, w');
    }
  }

  /** Whatever step is taken, in whatever order, the invariant survives. */
  lemma GoodKept(c: Config, w: World, st: Step, w': World)
    requires Good(c, w) && Sound(c) && Next(c, w, st, w')
    ensures Good(c, w')
  {
    hide Channels, Ids, Streams, Chunks, Local, Sound, Next, Conserved, Booked;
    InvKept(c, w, st, w');
    ConservedKept(c, w, st, w');
    BookedKept(c, w, st, w');
  }

  /** A run: worlds linked by steps, from the moment the client is registered. */
  ghost predicate Run(c: Config, ws: seq<World>, sts: seq<Step>) {
    && |ws| == |sts| + 1
    && ws[0] == Init()
    && forall i :: 0 <= i < |sts| ==> Next(c, ws[i], sts[i], ws[i + 1])
  }

  lemma RunLength(c: Config, ws: seq<World>, sts: seq<Step>)
    requires Run(c, ws, sts)
    ensures |ws| == |sts| + 1
  {
    hide Next, Init;
  }

  lemma RunStep(c: Config, ws: seq<World>, sts: seq<Step>, i: nat)
    requires Run(c, ws, sts) && i < |sts|
    ensures |ws| == |sts| + 1 && Next(c, ws[i], sts[i], ws[i + 1])
  {
    hide Next, Init;
  }

  lemma {:induction false} RunGood(c: Config, ws: seq<World>, sts: seq<Step>, i: nat)
    requires Sound(c) && Run(c, ws, sts) && i < |ws|
    ensures Good(c, ws[i])
  {
    hide Good, Sound, Next;
    if i == 0 {
      InitGood(c);
    } else {
      RunGood(c, ws, sts, i - 1);
      assert Next(c, ws[i - 1], sts[i - 1], ws[i - 1 + 1]);
      GoodKept(c, ws[i - 1], sts[i - 1], ws[i]);
    }
  }

  /** The four parts of the invariant, one by one. */
  lemma RunParts(c: Config, ws: seq<World>, sts: seq<Step>, i: nat)
    requires Sound(c) && Run(c, ws, sts) && i < |ws|
    ensures Ids(ws[i]) && Chunks(ws[i]) && Streams(c, ws[i]) && Channels(c, ws[i])
  {
    hide Sound, Run, Ids, Chunks, Streams, Channels, Conserved, Booked;
    RunGood(c, ws, sts, i);
  }
}
