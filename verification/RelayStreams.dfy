/** Ids stay unambiguous and both streams stay well formed, whatever step is taken. */
module RelayStreams {
  import opened Options
  import opened RelayTypes
  import opened RelayMachine
  import opened RelayInvariant
  import opened RelaySteps

  // ---------------------------------------------------------------- the frame a step writes

  /** The frame a step writes towards the client, and whether the write succeeds. */
  function DownFrame(c: Config, w: World, st: Step): Option<(Frame, bool)> {
    match st
    case Announce(id, ok) => Some((New(id, false), ok))
    case PipeWrite(id, ok) =>
      if id in w.srv.pipes && w.srv.pipes[id].Got?
      then Some((Pack(c.serverPacks, c.lz4, id, w.srv.pipes[id].chunk), ok)) else None
    case PipeClose(id, ok) => Some((Close(id), ok))
    case ServerPong(ok) => Some((Pong, ok))
    case UdpAnnounce(ok) => if w.srv.udpReader.UInserted? then Some((New(w.srv.udpReader.id, true), ok)) else None
    case UdpWrite(ok) =>
      if w.srv.udpReader.USend?
      then Some((Pack(c.serverPacks, c.lz4, w.srv.udpReader.id, w.srv.udpReader.data), ok)) else None
    case CleanClose(key, ok) => if key in w.srv.sessions then Some((Close(w.srv.sessions[key]), ok)) else None
    case _ => None
  }

  function UpFrame(c: Config, w: World, st: Step): Option<(Frame, bool)> {
    match st
    case ClientPing(ok) => Some((Ping, ok))
    case ClientDialClose(ok) => if w.cli.reader.LDialFailed? then Some((Close(w.cli.reader.id), ok)) else None
    case ClientReady(ok) => if w.cli.reader.LCounted? then Some((Ready(w.cli.reader.id), ok)) else None
    case LocalWrite(id, ok) =>
      if id in w.cli.pipes && w.cli.pipes[id].pc.LGot?
      then Some((Pack(c.clientPacks, c.lz4, id, w.cli.pipes[id].pc.chunk), ok)) else None
    case LocalClose(id, ok) => Some((Close(id), ok))
    case _ => None
  }

  function Advance(s: Stream, f: Option<(Frame, bool)>, read: bool): Stream {
    if f.Some? && !(f.value.1 && s.broken) then Send(s, f.value.0, f.value.1)
    else if read && s.queue != [] then s.(queue := s.queue[1..])
    else s
  }

  /** What a step does to the two streams. */
  predicate Moves(c: Config, w: World, st: Step, w': World) {
    && w'.down == Advance(w.down, DownFrame(c, w, st), st.ClientReceive?)
    && w'.up == Advance(w.up, UpFrame(c, w, st), st.ServerReceive?)
    && (DownFrame(c, w, st).Some? && DownFrame(c, w, st).value.1 ==> !w.down.broken)
    && (UpFrame(c, w, st).Some? && UpFrame(c, w, st).value.1 ==> !w.up.broken)
  }

  // ---------------------------------------------------------------- what each goroutine leaves alone

  lemma AcceptLeaves(c: Config, w: World, st: Step, w': World)
    requires AcceptNext(c, w, st, w')
    ensures w'.srv.reader == w.srv.reader && w'.srv.sessions == w.srv.sessions && w.next <= w'.next
    ensures w'.loc == w.loc && w'.posted == w.posted
    ensures Moves(c, w, st, w') && w'.cli == w.cli && w'.srv.udpIds == w.srv.udpIds
    ensures w'.srv.udpReader == w.srv.udpReader
  {
    hide Send, Shut;
  }

  lemma PipeLeaves(c: Config, w: World, st: Step, w': World)
    requires PipeNext(c, w, st, w')
    ensures w'.srv.reader == w.srv.reader && w'.srv.udpReader == w.srv.udpReader
    ensures w'.loc == w.loc && w'.posted == w.posted
    ensures Moves(c, w, st, w') && w'.cli == w.cli && w'.next == w.next
    ensures w'.srv.udpIds == w.srv.udpIds && w'.srv.accepting == w.srv.accepting && w'.srv.sessions == w.srv.sessions
  {
    hide Send, Shut, Fed, Pack, ConnAt;
  }

  lemma ReaderLeaves(c: Config, w: World, st: Step, w': World)
    requires ReaderNext(c, w, st, w')
    ensures w'.loc == w.loc && w'.srv.udpReader == w.srv.udpReader
    ensures !st.ServerPost? ==> w'.posted == w.posted
    ensures Moves(c, w, st, w') && w'.cli == w.cli && w'.next == w.next
    ensures w'.srv.udpIds == w.srv.udpIds && w'.srv.accepting == w.srv.accepting && w'.srv.pipes == w.srv.pipes
  {
    hide Send, Shut, Writes, Unpack, SessionIds, WithoutId, UdpFree;
  }

  lemma PacketLeaves(c: Config, w: World, st: Step, w': World)
    requires PacketNext(c, w, st, w')
    ensures w'.srv.reader == w.srv.reader && w.next <= w'.next
    ensures w'.loc == w.loc && w'.posted == w.posted
    ensures Moves(c, w, st, w') && w'.cli == w.cli && w'.srv.accepting == w.srv.accepting && w'.srv.pipes == w.srv.pipes
    ensures !st.UdpInsert? ==> w'.srv.udpIds == w.srv.udpIds && w'.next == w.next
  {
    hide Send, Pack, UdpFree;
  }

  lemma CleanLeaves(c: Config, w: World, st: Step, w': World)
    requires CleanNext(c, w, st, w')
    ensures w'.srv.reader == w.srv.reader && w'.srv.udpReader == w.srv.udpReader
    ensures w'.loc == w.loc && w'.posted == w.posted
    ensures Moves(c, w, st, w') && w'.cli == w.cli && w'.next == w.next
    ensures w'.srv.udpIds == w.srv.udpIds && w'.srv.accepting == w.srv.accepting && w'.srv.pipes == w.srv.pipes
  {
    hide Send, UdpFree;
  }

  lemma LoopLeaves(c: Config, w: World, st: Step, w': World)
    requires LoopNext(c, w, st, w')
    ensures w'.ext == w.ext && w'.posted == w.posted
    ensures Moves(c, w, st, w') && w'.srv == w.srv && w'.next == w.next
  {
    hide Send, Shut, Writes, Unpack;
  }

  lemma LocalLeaves(c: Config, w: World, st: Step, w': World)
    requires LocalNext(c, w, st, w')
    ensures w'.ext == w.ext && w'.posted == w.posted
    ensures Moves(c, w, st, w') && w'.srv == w.srv && w'.next == w.next
  {
    hide Send, Shut, Fed, Pack, Moved, ConnAt;
  }

  /** The two halves of the link touch each other only through the streams. */
  lemma StepMoves(c: Config, w: World, st: Step, w': World)
    requires Next(c, w, st, w')
    ensures Moves(c, w, st, w')
    ensures ClientStep(st) ==> w'.srv == w.srv && w'.next == w.next && w'.ext == w.ext
    ensures !ClientStep(st) ==> w'.cli == w.cli && w'.loc == w.loc
    ensures !st.UdpInsert? ==> w'.srv.udpIds == w.srv.udpIds
    ensures !ReaderStep(st) ==> w'.srv.reader == w.srv.reader
    ensures !PacketStep(st) ==> w'.srv.udpReader == w.srv.udpReader
    ensures !st.ServerPost? ==> w'.posted == w.posted
  {
    hide AcceptNext, PipeNext, ReaderNext, PacketNext, CleanNext, LoopNext, LocalNext, Moves;
    if st.OtherDraw? {
      DrawMoves(c, w, w');
    } else if LocalStep(st) {
      LocalLeaves(c, w, st, w');
    } else if LoopStep(st) {
      LoopLeaves(c, w, st, w');
    } else if AcceptStep(st) {
      AcceptLeaves(c, w, st, w');
    } else if PipeStep(st) {
      PipeLeaves(c, w, st, w');
    } else if ReaderStep(st) {
      ReaderLeaves(c, w, st, w');
    } else if PacketStep(st) {
      PacketLeaves(c, w, st, w');
    } else {
      CleanLeaves(c, w, st, w');
    }
  }

  lemma DrawMoves(c: Config, w: World, w': World)
    requires DoOtherDraw(w, w')
    ensures Moves(c, w, OtherDraw, w') && w'.srv == w.srv && w'.cli == w.cli && w'.ext == w.ext && w'.loc == w.loc
    ensures w'.posted == w.posted
  {}

  // ---------------------------------------------------------------- ids

  lemma AcceptIds(c: Config, w: World, st: Step, w': World)
    requires Ids(w) && AcceptNext(c, w, st, w')
    ensures Ids(w')
  {
    hide Send, Shut;
    if st.Number? {
      hide Ids;
      NumberIds(w, w');
    } else if st.Announce? {
      hide Ids;
      AnnounceIds(w, st.id, st.ok, w');
    } else if !st.Admit? {
      hide Ids;
      EntryIds(c, w, st, w');
    }
  }

  lemma NumberIds(w: World, w': World)
    requires Ids(w) && DoNumber(w, w')
    ensures Ids(w')
  {}

  lemma AnnounceIds(w: World, id: Id, ok: bool, w': World)
    requires Ids(w) && DoAnnounce(w, id, ok, w')
    ensures Ids(w')
  {
    hide Send;
  }

  lemma EntryIds(c: Config, w: World, st: Step, w': World)
    requires Ids(w) && (st.Insert? || st.DropFailed? || st.ReleaseFailed?) && AcceptNext(c, w, st, w')
    ensures Ids(w')
  {
    hide Shut;
  }

  lemma PipeIds(c: Config, w: World, st: Step, w': World)
    requires Ids(w) && PipeNext(c, w, st, w')
    ensures Ids(w')
  {
    hide Send, Shut, Fed, Pack, ConnAt;
  }

  lemma CloseUdpIds(w: World, w': World)
    requires Ids(w) && DoServerCloseUdp(w, w')
    ensures Ids(w')
  {
    if w.srv.reader.id in SessionIds(w.srv.sessions) {
      var key :| key in w.srv.sessions && w.srv.sessions[key] == w.srv.reader.id;
      SessionDropped(w.srv.sessions, key);
      hide SessionIds, WithoutId;
    }
  }

  lemma CloseTcpIds(w: World, w': World)
    requires Ids(w) && DoServerCloseTcp(w, w')
    ensures Ids(w')
  {
    hide Shut;
  }

  lemma ReaderIds(c: Config, w: World, st: Step, w': World)
    requires Ids(w) && ReaderNext(c, w, st, w')
    ensures Ids(w')
  {
    hide Send, Shut, Writes, Unpack, UdpFree, SessionIds, WithoutId;
    if st.ServerCloseUdp? {
      hide Ids, DoServerCloseUdp;
      CloseUdpIds(w, w');
    } else if st.ServerCloseTcp? {
      hide Ids, DoServerCloseTcp;
      CloseTcpIds(w, w');
    } else {
      hide DoServerCloseUdp, DoServerCloseTcp;
    }
  }

  lemma PacketIds(c: Config, w: World, st: Step, w': World)
    requires Ids(w) && PacketNext(c, w, st, w')
    ensures Ids(w')
  {
    hide Send, Pack;
  }

  lemma CleanIds(c: Config, w: World, st: Step, w': World)
    requires Ids(w) && CleanNext(c, w, st, w')
    ensures Ids(w')
  {
    hide Send;
  }

  lemma IdsKept(c: Config, w: World, st: Step, w': World)
    requires Ids(w) && Next(c, w, st, w')
    ensures Ids(w')
  {
    hide AcceptNext, PipeNext, ReaderNext, PacketNext, CleanNext, ClientNext;
    if st.OtherDraw? {
    } else if ClientStep(st) {
      StepMoves(c, w, st, w');
    } else {
      hide Ids;
      if AcceptStep(st) {
        AcceptIds(c, w, st, w');
      } else if PipeStep(st) {
        PipeIds(c, w, st, w');
      } else if ReaderStep(st) {
        ReaderIds(c, w, st, w');
      } else if PacketStep(st) {
        PacketIds(c, w, st, w');
      } else {
        CleanIds(c, w, st, w');
      }
    }
  }

  // ---------------------------------------------------------------- chunks

  lemma LocalChunks(c: Config, w: World, st: Step, w': World)
    requires Chunks(w) && LocalNext(c, w, st, w') && w'.srv == w.srv
    ensures Chunks(w')
  {
    hide Send, Shut, Fed, Pack, ConnAt;
    var id := st.id;
    assert id in w'.cli.pipes && (w'.cli.pipes[id].pc.LGot? ==> |w'.cli.pipes[id].pc.chunk| <= UDP_CHUNK);
    assert forall k :: k in w'.cli.pipes && k != id ==> k in w.cli.pipes && w'.cli.pipes[k] == w.cli.pipes[k];
  }

  lemma LoopChunks(c: Config, w: World, st: Step, w': World)
    requires Chunks(w) && LoopNext(c, w, st, w') && w'.srv == w.srv
    ensures Chunks(w')
  {
    hide Send, Shut, Writes, Unpack;
    assert forall k :: k in w'.cli.pipes && w'.cli.pipes[k].pc.LGot? ==>
             k in w.cli.pipes && w'.cli.pipes[k] == w.cli.pipes[k];
  }

  lemma PipeChunks(c: Config, w: World, st: Step, w': World)
    requires Chunks(w) && PipeNext(c, w, st, w') && w'.cli == w.cli
    ensures Chunks(w')
  {
    hide Send, Shut, Fed, Pack, ConnAt;
  }

  lemma AcceptChunks(c: Config, w: World, st: Step, w': World)
    requires Chunks(w) && AcceptNext(c, w, st, w') && w'.cli == w.cli
    ensures Chunks(w')
  {
    hide Send, Shut;
  }

  lemma PacketChunks(c: Config, w: World, st: Step, w': World)
    requires Chunks(w) && PacketNext(c, w, st, w') && w'.srv.pipes == w.srv.pipes && w'.cli == w.cli
    ensures Chunks(w')
  {
    hide Send, Pack, UdpFree;
  }

  lemma ChunksKept(c: Config, w: World, st: Step, w': World)
    requires Chunks(w) && Next(c, w, st, w')
    ensures Chunks(w')
  {
    hide AcceptNext, PipeNext, ReaderNext, PacketNext, CleanNext, LoopNext, LocalNext;
    StepMoves(c, w, st, w');
    if LocalStep(st) {
      LocalChunks(c, w, st, w');
    } else if LoopStep(st) {
      LoopChunks(c, w, st, w');
    } else if AcceptStep(st) {
      AcceptChunks(c, w, st, w');
    } else if PipeStep(st) {
      PipeChunks(c, w, st, w');
    } else if ReaderStep(st) {
      ReaderLeaves(c, w, st, w');
    } else if PacketStep(st) {
      PacketLeaves(c, w, st, w');
      PacketChunks(c, w, st, w');
    } else if CleanStep(st) {
      CleanLeaves(c, w, st, w');
    }
  }

  // ---------------------------------------------------------------- what may be written

  /** `f` continues the server-to-client stream in order. */
  predicate MayFollow(log: seq<Frame>, udpIds: set<Id>, f: Frame) {
    match f
    case New(id, udp) => !HasNew(log, id) && udp == (id in udpIds)
    case Data(id, _) => HasNew(log, id) && (id in udpIds || Close(id) !in log)
    case Packed(id, _) => HasNew(log, id) && (id in udpIds || Close(id) !in log)
    case Close(id) => HasNew(log, id) && Close(id) !in log
    case _ => true
  }

  lemma ChannelMayWrite(c: Config, w: World, id: Id)
    requires Inv(c, w)
    ensures id in w.srv.accepting && w.srv.accepting[id].Inserted? ==> !HasNew(w.down.log, id)
    ensures id in w.srv.pipes && (w.srv.pipes[id].Got? || w.srv.pipes[id].OweClose?)
            ==> HasNew(w.down.log, id) && Close(id) !in w.down.log
    ensures Unsaid(w.srv, id) ==> !HasNew(w.down.log, id)
    ensures w.srv.udpReader.USend? && w.srv.udpReader.id == id && !w.down.broken ==> HasNew(w.down.log, id)
    ensures w.srv.cleaner.CHold? && id in SessionIds(w.srv.sessions) && !w.down.broken
            ==> HasNew(w.down.log, id) && Close(id) !in w.down.log
    ensures w.cli.reader == LDialFailed(id) ==> Close(id) !in w.up.log
    ensures id in w.cli.pipes && (w.cli.pipes[id].pc.LGot? || w.cli.pipes[id].pc.LOweClose?) ==> Close(id) !in w.up.log
  {
    assert Local(ViewOf(c.lz4, w, id));
  }

  lemma TcpMayFollow(c: Config, w: World, st: Step, w': World)
    requires Inv(c, w) && (AcceptNext(c, w, st, w') || PipeNext(c, w, st, w')) && DownFrame(c, w, st).Some?
    ensures MayFollow(w.down.log, w.srv.udpIds, DownFrame(c, w, st).value.0)
  {
    hide Streams, Channels, Chunks, Local, HasNew, Send, Shut, Fed;
    ChannelMayWrite(c, w, st.id);
  }

  lemma UdpMayFollow(c: Config, w: World, st: Step, w': World)
    requires Inv(c, w) && (PacketNext(c, w, st, w') || CleanNext(c, w, st, w'))
    requires DownFrame(c, w, st).Some? && DownFrame(c, w, st).value.1 && !w.down.broken
    ensures MayFollow(w.down.log, w.srv.udpIds, DownFrame(c, w, st).value.0)
  {
    hide Streams, Channels, Chunks, Local, HasNew, Send, UdpFree;
    ChannelMayWrite(c, w, if st.CleanClose? then w.srv.sessions[st.key] else w.srv.udpReader.id);
  }

  lemma DownFrameMayFollow(c: Config, w: World, st: Step, w': World)
    requires Inv(c, w) && Next(c, w, st, w') && Moves(c, w, st, w')
    requires DownFrame(c, w, st).Some? && DownFrame(c, w, st).value.1
    ensures MayFollow(w.down.log, w.srv.udpIds, DownFrame(c, w, st).value.0)
  {
    hide Inv, AcceptNext, PipeNext, ReaderNext, PacketNext, CleanNext, ClientNext;
    if AcceptStep(st) || PipeStep(st) {
      TcpMayFollow(c, w, st, w');
    } else if PacketStep(st) || CleanStep(st) {
      UdpMayFollow(c, w, st, w');
    }
  }

  lemma UpFrameMayFollow(c: Config, w: World, st: Step, w': World)
    requires Inv(c, w) && Next(c, w, st, w')
    requires UpFrame(c, w, st).Some? && UpFrame(c, w, st).value.1
    ensures var f := UpFrame(c, w, st).value.0; !f.New? && forall id :: f.On(id) ==> Close(id) !in w.up.log
  {
    hide Streams, Channels, Local;
    match st
    case ClientDialClose(_) => ChannelMayWrite(c, w, w.cli.reader.id);
    case LocalWrite(id, _) => ChannelMayWrite(c, w, id);
    case LocalClose(id, _) => ChannelMayWrite(c, w, id);
    case _ =>
  }

  ghost predicate FitsOne(z: Lz4, unpacks: bool, f: Frame) {
    && (f.Data? || f.Packed? ==> |f.payload| < MAX_FRAME)
    && (f.Packed? ==> unpacks && z.decompress(f.payload).Some?)
  }

  lemma FramesFit(c: Config, w: World, st: Step, w': World)
    requires Chunks(w) && Sound(c) && Next(c, w, st, w')
    ensures DownFrame(c, w, st).Some? ==> FitsOne(c.lz4, c.clientUnpacks, DownFrame(c, w, st).value.0)
    ensures UpFrame(c, w, st).Some? ==> FitsOne(c.lz4, c.serverUnpacks, UpFrame(c, w, st).value.0)
  {}

  // ---------------------------------------------------------------- the streams

  lemma AdvanceKeeps(z: Lz4, unpacks: bool, s: Stream, f: Option<(Frame, bool)>, read: bool)
    requires Suffix(s) && Fits(z, unpacks, s.log) && (f.Some? ==> FitsOne(z, unpacks, f.value.0))
    ensures Suffix(Advance(s, f, read)) && Fits(z, unpacks, Advance(s, f, read).log)
  {
    if f.Some? && f.value.1 && !s.broken {
      var p := |s.log| - |s.queue|;
      assert (s.log + [f.value.0])[p..] == s.log[p..] + [f.value.0];
    }
  }

  lemma NewsOnceKept(log: seq<Frame>, udpIds: set<Id>, f: Frame)
    requires NewsOnce(log, udpIds) && MayFollow(log, udpIds, f)
    ensures NewsOnce(log + [f], udpIds)
  {
    var log' := log + [f];
    assert forall i :: 0 <= i < |log| ==> log'[i] == log[i] && log[i] in log;
  }

  lemma NewsFirstKept(log: seq<Frame>, udpIds: set<Id>, f: Frame)
    requires NewsFirst(log) && MayFollow(log, udpIds, f)
    ensures NewsFirst(log + [f])
  {
    hide HasNew;
    var log' := log + [f];
    forall j | 0 <= j < |log'| && (log'[j].Data? || log'[j].Packed? || log'[j].Close?)
      ensures HasNew(log'[..j], log'[j].id)
    {
      assert log'[..j] == log[..j];
      if j == |log| { assert log[..j] == log; } else { assert log'[j] == log[j]; }
    }
  }

  lemma ClosesLastKept(log: seq<Frame>, udpIds: set<Id>, f: Frame)
    requires NewsFirst(log) && ClosesLast(log, udpIds) && MayFollow(log, udpIds, f)
    ensures ClosesLast(log + [f], udpIds)
  {
    var log' := log + [f];
    assert forall i :: 0 <= i < |log| ==> log'[i] == log[i];
    forall i | 0 <= i < |log| && log[i].Close?
      ensures !(f.Close? && f.id == log[i].id) && (log[i].id in udpIds || !f.On(log[i].id))
    {
      assert log[i] in log;
      NewsBefore(log, i);
      hide HasNew;
    }
  }

  lemma NewsBefore(log: seq<Frame>, i: nat)
    requires NewsFirst(log) && i < |log| && log[i].Close?
    ensures HasNew(log, log[i].id)
  {
    assert HasNew(log[..i], log[i].id);
    assert forall g :: g in log[..i] ==> g in log;
  }

  lemma DownOrderKept(log: seq<Frame>, udpIds: set<Id>, f: Frame)
    requires DownOrder(log, udpIds) && MayFollow(log, udpIds, f)
    ensures DownOrder(log + [f], udpIds)
  {
    hide NewsOnce, NewsFirst, ClosesLast, MayFollow;
    NewsOnceKept(log, udpIds, f);
    NewsFirstKept(log, udpIds, f);
    ClosesLastKept(log, udpIds, f);
  }

  lemma UpOrderKept(log: seq<Frame>, f: Frame)
    requires UpOrder(log) && !f.New? && forall id :: f.On(id) ==> Close(id) !in log
    ensures UpOrder(log + [f])
  {
    var log' := log + [f];
    assert forall i :: 0 <= i < |log| ==> log'[i] == log[i];
    forall i | 0 <= i < |log| && log[i].Close? ensures !f.On(log[i].id) {
      assert log[i] == Close(log[i].id);
    }
  }

  /** A new UDP session does not change what the frames already written mean. */
  lemma UdpIdsGrow(c: Config, w: World, st: Step, w': World)
    requires Inv(c, w) && Next(c, w, st, w')
    ensures DownOrder(w.down.log, w'.srv.udpIds)
  {
    hide Local, Channels, Chunks, Fits, UpOrder, Suffix;
    if st.UdpInsert? {
      NotYetAnnounced(c, w);
      hide Ids, Next;
      UdpIdAdded(w.down.log, w.srv.udpIds, w.next + 1);
    } else {
      hide Ids, DownOrder;
      StepMoves(c, w, st, w');
      hide Next;
    }
  }

  lemma NotYetAnnounced(c: Config, w: World)
    requires Channels(c, w) && Ids(w)
    ensures !HasNew(w.down.log, w.next + 1)
  {
    assert Local(ViewOf(c.lz4, w, w.next + 1));
  }

  lemma UdpIdAdded(log: seq<Frame>, udpIds: set<Id>, id: Id)
    requires DownOrder(log, udpIds) && !HasNew(log, id)
    ensures DownOrder(log, udpIds + {id})
  {
    forall i | 0 <= i < |log| && log[i].New? ensures log[i].id != id {
      assert log[i] in log;
    }
  }

  lemma StreamsKept(c: Config, w: World, st: Step, w': World)
    requires Inv(c, w) && Sound(c) && Next(c, w, st, w')
    ensures Streams(c, w')
  {
    hide Channels, Ids, Chunks, Next, DownOrder, UpOrder, Fits;
    StepMoves(c, w, st, w');
    FramesFit(c, w, st, w');
    AdvanceKeeps(c.lz4, c.clientUnpacks, w.down, DownFrame(c, w, st), st.ClientReceive?);
    AdvanceKeeps(c.lz4, c.serverUnpacks, w.up, UpFrame(c, w, st), st.ServerReceive?);
    UdpIdsGrow(c, w, st, w');
    if DownFrame(c, w, st).Some? && DownFrame(c, w, st).value.1 {
      DownFrameMayFollow(c, w, st, w');
      DownOrderKept(w.down.log, w.srv.udpIds, DownFrame(c, w, st).value.0);
    }
    if UpFrame(c, w, st).Some? && UpFrame(c, w, st).value.1 {
      UpFrameMayFollow(c, w, st, w');
      UpOrderKept(w.up.log, UpFrame(c, w, st).value.0);
    }
  }
}
