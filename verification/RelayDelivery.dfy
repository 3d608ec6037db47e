/**
 * Each read loop acts on the frame it read last: on that frame's channel, with that frame's bytes. So what is handed
 * to the connections of a channel is what its frames carry, in order, and so what was read at the other end.
 */
module RelayDelivery {
  import opened Options
  import opened RelayTypes
  import opened RelayMachine
  import opened RelayInvariant
  import opened RelaySteps
  import opened RelayStreams
  import opened RelayRuns
  import opened RelayTheorems
  import opened RelayCarriage

  // ---------------------------------------------------------------- the frames read

  /** The frames that have been read from a stream. */
  function ReadPart(s: Stream): seq<Frame> {
    if |s.queue| <= |s.log| then s.log[..|s.log| - |s.queue|] else []
  }

  /** The frame the server's read loop took last. */
  function ServerTook(ws: seq<World>, sts: seq<Step>, i: nat): Option<Frame>
    requires i <= |sts| < |ws|
  {
    if i == 0 then None
    else if sts[i - 1].ServerReceive? && ws[i - 1].up.queue != [] then Some(ws[i - 1].up.queue[0])
    else ServerTook(ws, sts, i - 1)
  }

  /** The frame the client's read loop took last. */
  function ClientTook(ws: seq<World>, sts: seq<Step>, i: nat): Option<Frame>
    requires i <= |sts| < |ws|
  {
    if i == 0 then None
    else if sts[i - 1].ClientReceive? && ws[i - 1].down.queue != [] then Some(ws[i - 1].down.queue[0])
    else ClientTook(ws, sts, i - 1)
  }

  /** The session table as the server's read loop found it when it looked up the channel of that frame. */
  function FoundTable(ws: seq<World>, sts: seq<Step>, i: nat): map<Key, Id>
    requires i <= |sts| < |ws|
  {
    if i == 0 || sts[i - 1].ServerReceive? then map[]
    else if sts[i - 1].ServerLookup? then ws[i - 1].srv.sessions
    else FoundTable(ws, sts, i - 1)
  }

  lemma ReadPartMoves(s: Stream, f: Option<(Frame, bool)>, read: bool)
    requires Suffix(s) && (f.Some? && f.value.1 ==> !s.broken) && !(f.Some? && read)
    ensures ReadPart(Advance(s, f, read)) == ReadPart(s) + if read && s.queue != [] then [s.queue[0]] else []
  {
    var s', p := Advance(s, f, read), |s.log| - |s.queue|;
    if f.Some? && f.value.1 {
      assert s'.log[..p] == s.log[..p];
    } else if read && s.queue != [] {
      assert s.log[p] == s.log[p..][0];
      assert s.log[..p + 1] == s.log[..p] + [s.log[p]];
    }
  }

  /** Only a read moves the line between frames read and unread. */
  lemma ReadsMove(c: Config, w: World, st: Step, w': World)
    requires Streams(c, w) && Next(c, w, st, w')
    ensures ReadPart(w'.up) == ReadPart(w.up) + if st.ServerReceive? && w.up.queue != [] then [w.up.queue[0]] else []
    ensures ReadPart(w'.down)
            == ReadPart(w.down) + if st.ClientReceive? && w.down.queue != [] then [w.down.queue[0]] else []
  {
    hide Next, ReadPart, DownOrder, UpOrder, Fits;
    StepMoves(c, w, st, w');
    ReadPartMoves(w.up, UpFrame(c, w, st), st.ServerReceive?);
    ReadPartMoves(w.down, DownFrame(c, w, st), st.ClientReceive?);
  }

  // ---------------------------------------------------------------- what the server's read loop does with a frame

  /** What a frame makes the server do. */
  predicate ServerTakesUp(z: Lz4, f: Frame, r: ServerReader) {
    match f
    case Ping => r == SPong
    case Close(id) => r == SClose(id)
    case Data(id, _) => r == SData(id, Plain(z, f))
    case Packed(id, _) => r == SData(id, Plain(z, f))
    case _ => r == SIdle
  }

  /** The server is busy with frame `f`. */
  predicate ServerActsOn(z: Lz4, f: Frame, r: ServerReader) {
    match r
    case SIdle => true
    case SPong => f == Ping
    case SData(id, data) => IsData(f, id) && data == Plain(z, f)
    case SWrite(id, data) => IsData(f, id) && data == Plain(z, f)
    case SPost(id, _, data) => IsData(f, id) && data == Plain(z, f)
    case _ => f == Close(r.id)
  }

  /** Where each step of the read loop leaves it. */
  lemma ReaderSteps(c: Config, w: World, st: Step, w': World)
    requires Next(c, w, st, w') && ReaderStep(st)
    ensures var r, r' := w.srv.reader, w'.srv.reader;
            match st
            case ServerReceive => r == SIdle && w.up.queue != []
            case ServerPong(_) => r == SPong && r' == SIdle
            case ServerCloseTcp => r.SClose? && (r' == SRelease(r.id) || r' == SUdp(r.id))
            case ServerRelease => r.SRelease? && r' == SUdp(r.id)
            case ServerCloseUdp => r.SUdp? && (r' == SUdpRelease(r.id) || r' == SIdle)
            case ServerReleaseUdp => r.SUdpRelease? && r' == SIdle
            case ServerLookup =>
              r.SData?
              && if r'.SWrite? then r' == SWrite(r.id, r.data)
                 else if r'.SPost? then r' == SPost(r.id, r'.key, r.data) && Holds(w.srv.sessions, r'.key, r.id)
                 else r' == SIdle && !OnServer(w, r.id)
            case ServerWrite(_, _) => r.SWrite? && r' == SIdle
            case _ => r.SPost? && r' == SIdle
  {
    hide Send, Shut, Writes, Unpack, UdpFree, WithoutId;
    hide ClientNext, AcceptNext, PipeNext, PacketNext, CleanNext;
  }

  lemma ReceiveTakes(c: Config, w: World, w': World)
    requires Inv(c, w) && Next(c, w, ServerReceive, w')
    ensures w.up.queue != [] && w'.up.queue == w.up.queue[1..]
    ensures ServerTakesUp(c.lz4, w.up.queue[0], w'.srv.reader)
  {
    hide Ids, Chunks, Channels, DownOrder, UpOrder;
    assert DoServerReceive(c, w, w');
    hide Next;
    assert w.up.queue[0] == w.up.log[|w.up.log| - |w.up.queue|];
  }

  /** Every frame the server reads is taken up, none of them for another channel or with other bytes. */
  lemma ServerTakes(c: Config, ws: seq<World>, sts: seq<Step>, i: nat)
    requires Sound(c) && Run(c, ws, sts) && i < |sts| && sts[i].ServerReceive?
    ensures ws[i].up.queue != [] && ws[i + 1].up.queue == ws[i].up.queue[1..]
    ensures ServerTakesUp(c.lz4, ws[i].up.queue[0], ws[i + 1].srv.reader)
  {
    assert Next(c, ws[i], sts[i], ws[i + 1]);
    hide Next;
    RunGood(c, ws, sts, i);
    hide Inv, Run;
    ReceiveTakes(c, ws[i], ws[i + 1]);
  }

  lemma StillActs(c: Config, w: World, st: Step, w': World, f: Frame)
    requires Next(c, w, st, w') && ReaderStep(st) && !st.ServerReceive? && ServerActsOn(c.lz4, f, w.srv.reader)
    ensures ServerActsOn(c.lz4, f, w'.srv.reader)
    ensures var r := w'.srv.reader; r.SPost? ==> st.ServerLookup? && Holds(w.srv.sessions, r.key, r.id)
    ensures w.srv.reader != SIdle
  {
    hide Next, Plain;
    ReaderSteps(c, w, st, w');
  }

  lemma {:induction false} ServerActs(c: Config, ws: seq<World>, sts: seq<Step>, i: nat)
    requires Sound(c) && Run(c, ws, sts) && i < |ws| && ws[i].srv.reader != SIdle
    ensures ServerTook(ws, sts, i).Some? && ServerActsOn(c.lz4, ServerTook(ws, sts, i).value, ws[i].srv.reader)
    ensures var r := ws[i].srv.reader; r.SPost? ==> Holds(FoundTable(ws, sts, i), r.key, r.id)
    decreases i, 1
  {
    hide Next, Sound, ServerActsOn;
    if i > 0 {
      assert Next(c, ws[i - 1], sts[i - 1], ws[i - 1 + 1]);
      if sts[i - 1].ServerReceive? {
        ServerTakes(c, ws, sts, i - 1);
        ActsOnTaken(c.lz4, ws[i - 1].up.queue[0], ws[i].srv.reader);
      } else {
        hide ServerTook, Run;
        ServerActsNext(c, ws, sts, i - 1);
      }
    }
  }

  lemma ActsOnTaken(z: Lz4, f: Frame, r: ServerReader)
    requires ServerTakesUp(z, f, r)
    ensures ServerActsOn(z, f, r) && !r.SPost?
  {}

  lemma {:induction false} ServerActsNext(c: Config, ws: seq<World>, sts: seq<Step>, i: nat)
    requires Sound(c) && Run(c, ws, sts) && i < |sts| && !sts[i].ServerReceive? && ws[i + 1].srv.reader != SIdle
    ensures ServerTook(ws, sts, i + 1).Some?
    ensures ServerActsOn(c.lz4, ServerTook(ws, sts, i + 1).value, ws[i + 1].srv.reader)
    ensures var r := ws[i + 1].srv.reader; r.SPost? ==> Holds(FoundTable(ws, sts, i + 1), r.key, r.id)
    decreases i + 1, 0
  {
    var w, st, w' := ws[i], sts[i], ws[i + 1];
    assert Next(c, w, st, w');
    hide Next, Sound, Run, ServerActsOn;
    if ReaderStep(st) {
      StartsBusy(c, w, st, w');
      ServerActs(c, ws, sts, i);
      StillActs(c, w, st, w', ServerTook(ws, sts, i).value);
    } else {
      StepMoves(c, w, st, w');
      ServerActs(c, ws, sts, i);
    }
  }

  lemma StartsBusy(c: Config, w: World, st: Step, w': World)
    requires Next(c, w, st, w') && ReaderStep(st) && !st.ServerReceive?
    ensures w.srv.reader != SIdle
  {
    hide Next;
    ReaderSteps(c, w, st, w');
  }

  /** A write on the server puts the bytes of the frame read last on the connection of that frame's channel. */
  lemma ServerWritesTheFrame(c: Config, ws: seq<World>, sts: seq<Step>, i: nat)
    requires Sound(c) && Run(c, ws, sts) && i < |sts| && sts[i].ServerWrite?
    ensures ServerTook(ws, sts, i).Some?
    ensures var f := ServerTook(ws, sts, i).value;
            (f.Data? || f.Packed?)
            && var data, k, k' := Plain(c.lz4, f), ConnAt(ws[i].ext, f.id), ConnAt(ws[i + 1].ext, f.id);
            sts[i].n <= |data| && (sts[i].ok ==> sts[i].n == |data|)
            && k'.output == k.output + data[..sts[i].n] && k'.input == k.input && k'.open == k.open
    ensures var f := ServerTook(ws, sts, i).value;
            forall id :: id != f.id ==> ConnAt(ws[i + 1].ext, id) == ConnAt(ws[i].ext, id)
  {
    assert Next(c, ws[i], sts[i], ws[i + 1]) && DoServerWrite(ws[i], sts[i].n, sts[i].ok, ws[i + 1]);
    hide Next, Run, Sound, Plain, ServerTook;
    ServerActs(c, ws, sts, i);
  }

  /** A datagram from the client goes to the address whose session had the frame's channel when it was looked up. */
  lemma ServerPostsTheFrame(c: Config, ws: seq<World>, sts: seq<Step>, i: nat) returns (key: Key)
    requires Sound(c) && Run(c, ws, sts) && i < |sts| && sts[i].ServerPost?
    ensures ServerTook(ws, sts, i).Some?
    ensures var f := ServerTook(ws, sts, i).value;
            (f.Data? || f.Packed?) && Holds(FoundTable(ws, sts, i), key, f.id)
            && ws[i + 1].posted == ws[i].posted + [(key, Plain(c.lz4, f))]
  {
    assert Next(c, ws[i], sts[i], ws[i + 1]) && DoServerPost(ws[i], ws[i + 1]);
    hide Next, Run, Sound, Plain, ServerTook;
    ServerActs(c, ws, sts, i);
    key := ws[i].srv.reader.key;
  }

  // ---------------------------------------------------------------- pings

  lemma PongsGrow(c: Config, w: World, st: Step, w': World)
    requires Moves(c, w, st, w')
    ensures multiset(w'.down.log)[Pong] == multiset(w.down.log)[Pong] + if st.ServerPong? && st.ok then 1 else 0
    ensures !w'.down.broken ==> !w.down.broken && (st.ServerPong? ==> st.ok)
  {}

  predicate Answered(w: World) {
    var owed := if w.srv.reader == SPong then 1 else 0;
    && multiset(w.down.log)[Pong] + owed <= multiset(ReadPart(w.up))[Ping]
    && (!w.down.broken ==> multiset(w.down.log)[Pong] + owed == multiset(ReadPart(w.up))[Ping])
  }

  lemma ReceiveAnswers(c: Config, w: World, w': World)
    requires Inv(c, w) && Next(c, w, ServerReceive, w') && Answered(w)
    ensures Answered(w')
  {
    ReceiveTakes(c, w, w');
    ReaderSteps(c, w, ServerReceive, w');
    hide Ids, Chunks, Channels, DownOrder, UpOrder, Fits, ReadPart, Next, Plain;
    ReadsMove(c, w, ServerReceive, w');
    StepMoves(c, w, ServerReceive, w');
  }

  lemma OthersAnswer(c: Config, w: World, st: Step, w': World)
    requires Streams(c, w) && Next(c, w, st, w') && !st.ServerReceive? && Answered(w)
    ensures Answered(w')
  {
    hide Streams, ReadPart, Next;
    ReadsMove(c, w, st, w');
    StepMoves(c, w, st, w');
    PongsGrow(c, w, st, w');
    hide Moves;
    if ReaderStep(st) { ReaderSteps(c, w, st, w'); }
  }

  /** Every ping the server reads is answered by one pong, while its stream works, and by no more than one ever. */
  lemma {:induction false} PingsAreAnswered(c: Config, ws: seq<World>, sts: seq<Step>, i: nat)
    requires Sound(c) && Run(c, ws, sts) && i < |ws|
    ensures var w := ws[i];
            var owed := if w.srv.reader == SPong then 1 else 0;
            multiset(w.down.log)[Pong] + owed <= multiset(ReadPart(w.up))[Ping]
            && (!w.down.broken ==> multiset(w.down.log)[Pong] + owed == multiset(ReadPart(w.up))[Ping])
  {
    hide Next;
    if i > 0 {
      assert Next(c, ws[i - 1], sts[i - 1], ws[i - 1 + 1]);
      PingsAreAnswered(c, ws, sts, i - 1);
      RunGood(c, ws, sts, i - 1);
      hide Run, Streams, Ids, Chunks, Channels;
      if sts[i - 1].ServerReceive? {
        ReceiveAnswers(c, ws[i - 1], ws[i]);
      } else {
        OthersAnswer(c, ws[i - 1], sts[i - 1], ws[i]);
      }
    }
  }

  // ---------------------------------------------------------------- what the client's read loop does with a frame

  /** What a frame makes the client do. */
  predicate ClientTakesUp(z: Lz4, f: Frame, r: ClientReader) {
    match f
    case New(id, udp) => r == LDial(id, udp)
    case Close(id) => r == LClose(id)
    case Data(id, _) => r == LData(id, Plain(z, f))
    case Packed(id, _) => r == LData(id, Plain(z, f))
    case _ => r == LIdle
  }

  /** The client is busy with frame `f`. */
  predicate ClientActsOn(z: Lz4, f: Frame, r: ClientReader) {
    match r
    case LIdle => true
    case LDial(id, udp) => f == New(id, udp)
    case LDialFailed(id) => f == New(id, false) || f == New(id, true)
    case LInserted(id, udp) => f == New(id, udp)
    case LCounted(id, udp) => f == New(id, udp)
    case LClose(id) => f == Close(id)
    case LData(id, data) => IsData(f, id) && data == Plain(z, f)
    case LWrite(id, data) => IsData(f, id) && data == Plain(z, f)
  }

  /** Where each step of the read loop leaves it. */
  lemma LoopSteps(c: Config, w: World, st: Step, w': World)
    requires Next(c, w, st, w') && LoopStep(st)
    ensures var r, r' := w.cli.reader, w'.cli.reader;
            match st
            case ClientReceive => r == LIdle && w.down.queue != []
            case ClientPing(_) => r == LIdle && r' == LIdle
            case ClientDial(ok) => r.LDial? && r' == if ok then LInserted(r.id, r.udp) else LDialFailed(r.id)
            case ClientDialClose(_) => r.LDialFailed? && r' == LIdle
            case ClientCount => r.LInserted? && r' == LCounted(r.id, r.udp)
            case ClientReady(_) => r.LCounted? && r' == LIdle
            case ClientClose => r.LClose? && r' == LIdle
            case ClientLookup => r.LData? && r' == if OnClient(w, r.id) then LWrite(r.id, r.data) else LIdle
            case _ => r.LWrite? && r' == LIdle
  {
    hide Send, Shut, Writes, Unpack;
    hide ServerNext, LocalNext;
  }

  lemma ReceiveIsTaken(c: Config, w: World, w': World)
    requires Inv(c, w) && Next(c, w, ClientReceive, w')
    ensures w.down.queue != [] && w'.down.queue == w.down.queue[1..]
    ensures ClientTakesUp(c.lz4, w.down.queue[0], w'.cli.reader)
  {
    hide Ids, Chunks, Channels, DownOrder, UpOrder;
    assert DoClientReceive(c, w, w');
    hide Next;
    assert w.down.queue[0] == w.down.log[|w.down.log| - |w.down.queue|];
  }

  /** Every frame the client reads is taken up, none of them for another channel or with other bytes. */
  lemma ClientTakes(c: Config, ws: seq<World>, sts: seq<Step>, i: nat)
    requires Sound(c) && Run(c, ws, sts) && i < |sts| && sts[i].ClientReceive?
    ensures ws[i].down.queue != [] && ws[i + 1].down.queue == ws[i].down.queue[1..]
    ensures ClientTakesUp(c.lz4, ws[i].down.queue[0], ws[i + 1].cli.reader)
  {
    assert Next(c, ws[i], sts[i], ws[i + 1]);
    hide Next;
    RunGood(c, ws, sts, i);
    hide Inv, Run;
    ReceiveIsTaken(c, ws[i], ws[i + 1]);
  }

  /** A step of the client that is not a read keeps it busy with the same frame, or leaves it idle. */
  lemma ClientStillActs(c: Config, w: World, st: Step, w': World, f: Frame)
    requires Next(c, w, st, w') && !st.ClientReceive?
    requires w.cli.reader != LIdle ==> ClientActsOn(c.lz4, f, w.cli.reader)
    ensures w'.cli.reader != LIdle ==> w.cli.reader != LIdle && ClientActsOn(c.lz4, f, w'.cli.reader)
  {
    if LoopStep(st) {
      hide Next, Plain;
      LoopSteps(c, w, st, w');
    } else if LocalStep(st) {
      hide ServerNext, LoopNext, Send, Shut, Fed, Pack, Moved, ConnAt;
    } else {
      hide Next;
      StepMoves(c, w, st, w');
    }
  }

  lemma {:induction false} ClientActs(c: Config, ws: seq<World>, sts: seq<Step>, i: nat)
    requires Sound(c) && Run(c, ws, sts) && i < |ws| && ws[i].cli.reader != LIdle
    ensures ClientTook(ws, sts, i).Some? && ClientActsOn(c.lz4, ClientTook(ws, sts, i).value, ws[i].cli.reader)
  {
    hide Next, Sound;
    if i > 0 {
      assert Next(c, ws[i - 1], sts[i - 1], ws[i - 1 + 1]);
      if sts[i - 1].ClientReceive? {
        ClientTakes(c, ws, sts, i - 1);
      } else {
        hide ClientActsOn;
        if ws[i - 1].cli.reader != LIdle { ClientActs(c, ws, sts, i - 1); }
        hide Run;
        var was := ClientTook(ws, sts, i - 1);
        ClientStillActs(c, ws[i - 1], sts[i - 1], ws[i], if was.Some? then was.value else Ping);
      }
    }
  }

  /** A write on the client puts the bytes of the frame read last on the connection of that frame's channel. */
  lemma ClientWritesTheFrame(c: Config, ws: seq<World>, sts: seq<Step>, i: nat)
    requires Sound(c) && Run(c, ws, sts) && i < |sts| && sts[i].ClientWrite?
    ensures ClientTook(ws, sts, i).Some?
    ensures var f := ClientTook(ws, sts, i).value;
            (f.Data? || f.Packed?)
            && var data, k, k' := Plain(c.lz4, f), ConnAt(ws[i].loc, f.id), ConnAt(ws[i + 1].loc, f.id);
            sts[i].n <= |data| && (sts[i].ok ==> sts[i].n == |data|)
            && k'.output == k.output + data[..sts[i].n] && k'.input == k.input && k'.open == k.open
    ensures var f := ClientTook(ws, sts, i).value;
            forall id :: id != f.id ==> ConnAt(ws[i + 1].loc, id) == ConnAt(ws[i].loc, id)
  {
    assert Next(c, ws[i], sts[i], ws[i + 1]) && DoClientWrite(ws[i], sts[i].n, sts[i].ok, ws[i + 1]);
    hide Next, Run, Sound, Plain, ClientTook;
    ClientActs(c, ws, sts, i);
  }

  // ---------------------------------------------------------------- conn_ready

  lemma ReadyFrame(c: Config, w: World, st: Step, w': World, id: Id)
    requires Next(c, w, st, w') && LoopStep(st)
    ensures id in w'.cli.pipes <==>
              id in w.cli.pipes || (UpFrame(c, w, st).Some? && UpFrame(c, w, st).value == (Ready(id), true))
  {
    hide ServerNext, LocalNext, Send, Shut, Writes, Unpack;
  }

  lemma LocalStaysStarted(c: Config, w: World, st: Step, w': World, id: Id)
    requires Next(c, w, st, w') && LocalStep(st)
    ensures id in w'.cli.pipes <==> id in w.cli.pipes
    ensures UpFrame(c, w, st).Some? ==> !UpFrame(c, w, st).value.0.Ready?
  {
    hide ServerNext, LoopNext, Send, Shut, Fed, ConnAt;
  }

  lemma ReadyStep(c: Config, w: World, st: Step, w': World, id: Id)
    requires Next(c, w, st, w') && (Ready(id) in w.up.log <==> id in w.cli.pipes)
    ensures Ready(id) in w'.up.log <==> id in w'.cli.pipes
  {
    hide Next;
    StepMoves(c, w, st, w');
    if LocalStep(st) {
      LocalStaysStarted(c, w, st, w', id);
    } else if LoopStep(st) {
      ReadyFrame(c, w, st, w', id);
    }
    hide UpFrame, DownFrame;
  }

  /** A channel's pipe on the client was started exactly if the server was told that the channel is ready. */
  lemma {:induction false} ReadyIff(c: Config, ws: seq<World>, sts: seq<Step>, i: nat, id: Id)
    requires Run(c, ws, sts) && i < |ws|
    ensures Ready(id) in ws[i].up.log <==> id in ws[i].cli.pipes
  {
    hide Next;
    if i > 0 {
      assert Next(c, ws[i - 1], sts[i - 1], ws[i - 1 + 1]);
      ReadyIff(c, ws, sts, i - 1, id);
      hide Run;
      ReadyStep(c, ws[i - 1], sts[i - 1], ws[i], id);
    }
  }
}
