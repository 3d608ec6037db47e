/**
 * Nobody gets stuck: in every reachable state a goroutine that is in the middle of something can take its next step,
 * or waits for udpMu, whose holder can. A goroutine that is not in the middle of something waits for input only.
 */
module RelayProgress {
  import opened Options
  import opened RelayTypes
  import opened RelayMachine
  import opened RelayInvariant
  import opened RelayStreams
  import opened RelayRuns
  import opened RelayTheorems
  import opened RelayCarriage

  /** No write of the step fails. */
  predicate Succeeds(st: Step) {
    match st
    case Announce(_, ok) => ok
    case PipeWrite(_, ok) => ok
    case PipeClose(_, ok) => ok
    case ServerPong(ok) => ok
    case UdpAnnounce(ok) => ok
    case UdpWrite(ok) => ok
    case CleanClose(_, ok) => ok
    case ClientPing(ok) => ok
    case ClientDialClose(ok) => ok
    case ClientReady(ok) => ok
    case LocalWrite(_, ok) => ok
    case LocalClose(_, ok) => ok
    case _ => true
  }

  /** What a Write of `data` may do in its next step: all of it, or an error at once. */
  function Written(m: map<Id, Conn>, id: Id, data: Bytes): map<Id, Conn> {
    var k := ConnAt(m, id);
    m[id := if k.Usable() then k.(output := k.output + data) else k.(output := k.output + [], writable := false)]
  }

  lemma WritesGoOn(m: map<Id, Conn>, id: Id, data: Bytes)
    ensures var ok := ConnAt(m, id).Usable(); Writes(m, id, data, if ok then |data| else 0, ok, Written(m, id, data))
  {
    assert data[..|data|] == data && data[..0] == [];
  }

  /** An accept goroutine goes on to the end: its connection is served, or closed and released. */
  lemma AcceptGoesOn(c: Config, w: World, id: Id) returns (st: Step, w': World)
    requires id in w.srv.accepting && w.srv.accepting[id] != Announced && w.srv.accepting[id] != Returned
    requires !w.srv.accepting[id].Unseen?
    ensures AcceptStep(st) && !st.Admit? && !st.Number? && st.id == id && Next(c, w, st, w')
    ensures !w.down.broken ==> Succeeds(st)
  {
    hide ClientNext, PipeNext, ReaderNext, PacketNext, CleanNext, Shut, Send;
    var ok := !w.down.broken;
    match w.srv.accepting[id]
    case Numbered => st, w' := Step.Insert(id), WithConn(w, id);
    case Inserted =>
      st := Step.Announce(id, ok);
      w' := if ok
            then w.(down := Send(w.down, New(id, false), true),
                    srv := w.srv.(accepting := w.srv.accepting[id := Announced], pipes := w.srv.pipes[id := Piping]))
            else w.(down := Send(w.down, New(id, false), false),
                    srv := w.srv.(accepting := w.srv.accepting[id := SendFailed]));
    case SendFailed => st, w' := Step.DropFailed(id), WithoutFailed(w, id);
    case Dropped => st, w' := Step.ReleaseFailed(id), FailureReleased(c, w, id);
  }

  /** A pipe that has a chunk, owes a close or is leaving goes on; one that is piping can always end, and takes any
      chunk that fits its buffer while its connection is open. */
  lemma PipeGoesOn(c: Config, w: World, id: Id) returns (st: Step, w': World)
    requires id in w.srv.pipes && !w.srv.pipes[id].Unstarted? && !w.srv.pipes[id].Exited?
    ensures PipeStep(st) && !st.PipeRead? && st.id == id && Next(c, w, st, w')
    ensures w.srv.pipes[id] != Piping ==> !st.PipeEof?
    ensures !w.down.broken ==> Succeeds(st)
  {
    hide ClientNext, AcceptNext, ReaderNext, PacketNext, CleanNext, Shut, Fed, ConnAt, Pack, Send;
    var ok := !w.down.broken;
    match w.srv.pipes[id]
    case Piping => st, w' := Step.PipeEof(id), w.(srv := w.srv.(pipes := w.srv.pipes[id := OweClose]));
    case Got(chunk) =>
      st := Step.PipeWrite(id, ok);
      w' := w.(down := Send(w.down, Pack(c.serverPacks, c.lz4, id, chunk), ok),
               srv := w.srv.(pipes := w.srv.pipes[id := if ok then Piping else PipePc.Cleanup]));
    case OweClose =>
      st := Step.PipeClose(id, ok);
      w' := w.(down := Send(w.down, Frame.Close(id), ok), srv := w.srv.(pipes := w.srv.pipes[id := PipePc.Cleanup]));
    case Cleanup => st, w' := Step.PipeRemove(id), PipeRemoved(w, id);
    case Releasing => st, w' := Step.PipeRelease(id), PipeReleased(c, w, id);
  }

  lemma PipeTakesChunk(c: Config, w: World, id: Id, chunk: Bytes) returns (w': World)
    requires PipeAt(w.srv.pipes, id, Piping) && ConnAt(w.ext, id).open && 0 < |chunk| <= TCP_CHUNK
    ensures Next(c, w, Step.PipeRead(id, chunk), w')
  {
    w' := w.(ext := Fed(w.ext, id, chunk), srv := w.srv.(pipes := w.srv.pipes[id := Got(chunk)]));
  }

  lemma ServerWrites(c: Config, w: World) returns (st: Step, w': World)
    requires w.srv.reader.SWrite?
    ensures st.ServerWrite? && Next(c, w, st, w')
  {
    hide ClientNext, AcceptNext, PipeNext, PacketNext, CleanNext, Written, Writes;
    var id, data := w.srv.reader.id, w.srv.reader.data;
    WritesGoOn(w.ext, id, data);
    var ok := ConnAt(w.ext, id).Usable();
    st := ServerWrite(if ok then |data| else 0, ok);
    w' := w.(ext := Written(w.ext, id, data), srv := w.srv.(reader := SIdle));
  }

  /** The server's read loop goes on with its frame, if udpMu is free where it needs it. */
  lemma ReaderGoesOn(c: Config, w: World) returns (st: Step, w': World)
    requires w.srv.reader != SIdle
    requires w.srv.reader.SUdp? || w.srv.reader.SData? ==> UdpFree(w)
    ensures ReaderStep(st) && Next(c, w, st, w')
    ensures !w.down.broken ==> Succeeds(st)
  {
    hide ClientNext, AcceptNext, PipeNext, PacketNext, CleanNext, Shut, WithoutId, Writes, UdpFree, Send, ConnAt,
         Written, Unpack;
    match w.srv.reader
    case SPong =>
      var ok := !w.down.broken;
      st, w' := ServerPong(ok), w.(down := Send(w.down, Pong, ok), srv := w.srv.(reader := SIdle));
    case SClose(id) => st, w' := ServerCloseTcp, TcpClosed(w, id);
    case SRelease(id) => st, w' := ServerRelease, TcpReleased(c, w, id);
    case SUdp(id) => st, w' := ServerCloseUdp, UdpClosed(w, id);
    case SUdpRelease(id) => st, w' := ServerReleaseUdp, UdpReleased(c, w);
    case SData(id, data) => st, w' := ServerLookup, LookedUp(w, id, data);
    case SWrite(_, _) => st, w' := ServerWrites(c, w);
    case SPost(_, key, data) =>
      st, w' := ServerPost, w.(posted := w.posted + [(key, data)], srv := w.srv.(reader := SIdle));
  }

  /** A frame's channel is found in one of the tables, or in none. */
  ghost function LookedUp(w: World, id: Id, data: Bytes): World {
    w.(srv := w.srv.(reader :=
      if id in w.srv.conns then SWrite(id, data)
      else if id in SessionIds(w.srv.sessions) then
        var key :| key in w.srv.sessions && w.srv.sessions[key] == id;
        SPost(id, key, data)
      else SIdle))
  }

  lemma ReaderTakesFrame(c: Config, w: World) returns (w': World)
    requires w.srv.reader == SIdle && w.up.queue != []
    ensures Next(c, w, ServerReceive, w')
  {
    hide ClientNext, AcceptNext, PipeNext, PacketNext, CleanNext;
    var f := w.up.queue[0];
    var u := Unpack(c.serverUnpacks, c.lz4, f);
    var pc := match f
              case Close(id) => SClose(id)
              case Ping => SPong
              case Data(id, _) => SData(id, u.value)
              case Packed(id, _) => if u.Some? then SData(id, u.value) else SIdle
              case _ => SIdle;
    w' := w.(up := w.up.(queue := w.up.queue[1..]), srv := w.srv.(reader := pc));
  }

  /** The packet loop goes on with its packet; to give it an id, the counter must have one left. */
  lemma PacketGoesOn(c: Config, w: World) returns (st: Step, w': World)
    requires w.srv.udpReader.UAdmitted? || w.srv.udpReader.UInserted? || w.srv.udpReader.USend?
    requires w.srv.udpReader.UAdmitted? ==> CanDraw(w)
    ensures PacketStep(st) && !st.UdpHit? && !st.UdpAdmit? && Next(c, w, st, w')
    ensures !w.down.broken ==> Succeeds(st)
  {
    hide ClientNext, AcceptNext, PipeNext, ReaderNext, CleanNext;
    var ok := !w.down.broken;
    match w.srv.udpReader
    case UAdmitted(key, data) => st, w' := UdpInsert, WithSession(w, key, data);
    case UInserted(id, data) => st, w' := UdpAnnounce(ok), SessionAnnounced(w, id, data, ok);
    case USend(id, data) =>
      st := UdpWrite(ok);
      w' := w.(down := Send(w.down, Pack(c.serverPacks, c.lz4, id, data), ok),
               srv := w.srv.(udpReader := if ok then UIdle else UStopped));
  }

  /** A packet is taken up unless it is too long, or its address is unknown and the limiter is full. */
  lemma PacketIsTaken(c: Config, w: World, key: Key, data: Bytes) returns (st: Step, w': World)
    requires w.srv.udpReader == UIdle && UdpFree(w) && |data| <= UDP_CHUNK
    requires key in w.srv.sessions || c.maxConns <= 0 || w.srv.current < c.maxConns
    ensures (st == UdpHit(key, data) || st == UdpAdmit(key, data)) && Next(c, w, st, w')
  {
    hide ClientNext, AcceptNext, PipeNext, ReaderNext, CleanNext;
    if key in w.srv.sessions {
      st, w' := UdpHit(key, data), SessionFound(w, key, data);
    } else {
      st, w' := UdpAdmit(key, data), SessionAdmitted(c, w, key, data);
    }
  }

  /** The cleanup goes on while it holds udpMu, and may end a sweep between two sessions. */
  lemma CleanerGoesOn(c: Config, w: World) returns (st: Step, w': World)
    requires w.srv.cleaner != CIdle
    ensures CleanStep(st) && !st.CleanLock? && Next(c, w, st, w')
    ensures Succeeds(st)
  {
    hide ClientNext, AcceptNext, PipeNext, ReaderNext, PacketNext;
    match w.srv.cleaner
    case CHold => st, w' := CleanUnlock, CleanerAt(w, CIdle);
    case CClosed(key) => st, w' := CleanRelease, SessionReleased(c, w, key);
    case CReleased(key) => st, w' := CleanDelete, WithoutSession(w, key);
  }

  /** Whoever waits for udpMu waits for a goroutine that can go on. */
  lemma LockHolderGoesOn(c: Config, w: World) returns (st: Step, w': World)
    requires !UdpFree(w) && (w.srv.udpReader.UAdmitted? ==> CanDraw(w))
    ensures (PacketStep(st) || CleanStep(st)) && !Enters(st) && Next(c, w, st, w')
    ensures !w.down.broken ==> Succeeds(st)
  {
    if w.srv.cleaner != CIdle {
      st, w' := CleanerGoesOn(c, w);
    } else {
      st, w' := PacketGoesOn(c, w);
    }
  }

  lemma ClientWrites(c: Config, w: World) returns (st: Step, w': World)
    requires w.cli.reader.LWrite?
    ensures st.ClientWrite? && Next(c, w, st, w')
  {
    hide ServerNext, LocalNext, Written, Writes;
    var id, data := w.cli.reader.id, w.cli.reader.data;
    WritesGoOn(w.loc, id, data);
    var ok := ConnAt(w.loc, id).Usable();
    st := ClientWrite(if ok then |data| else 0, ok);
    w' := w.(loc := Written(w.loc, id, data), cli := w.cli.(reader := LIdle));
  }

  lemma LoopSends(c: Config, w: World) returns (st: Step, w': World)
    requires w.cli.reader.LDialFailed? || w.cli.reader.LCounted?
    ensures (st.ClientDialClose? || st.ClientReady?) && Next(c, w, st, w')
    ensures !w.up.broken ==> Succeeds(st)
  {
    hide ServerNext, LocalNext, Shut, Writes, Send, ConnAt, Unpack;
    var ok, id := !w.up.broken, w.cli.reader.id;
    if w.cli.reader.LDialFailed? {
      st := ClientDialClose(ok);
      w' := w.(up := Send(w.up, Frame.Close(id), ok), cli := w.cli.(reader := LIdle));
    } else {
      st := ClientReady(ok);
      var pipes := if ok then w.cli.pipes[id := LocalPipe(w.cli.reader.udp, LPiping)] else w.cli.pipes;
      w' := w.(up := Send(w.up, Ready(id), ok), cli := w.cli.(reader := LIdle, pipes := pipes));
    }
  }

  /** The client's read loop goes on with its frame. */
  lemma LoopGoesOn(c: Config, w: World) returns (st: Step, w': World)
    requires w.cli.reader != LIdle
    ensures LoopStep(st) && !st.ClientPing? && Next(c, w, st, w')
    ensures !w.up.broken ==> Succeeds(st)
  {
    hide ServerNext, LocalNext, Shut, Writes, Send, ConnAt, Written, Unpack;
    match w.cli.reader
    case LDial(id, udp) => st, w' := ClientDial(true), WithLocal(w, id, udp);
    case LDialFailed(_) => st, w' := LoopSends(c, w);
    case LInserted(id, udp) => st, w' := ClientCount, Counted(w, id, udp);
    case LCounted(_, _) => st, w' := LoopSends(c, w);
    case LClose(id) => st, w' := ClientClose, LocalClosed(w, id);
    case LData(id, data) =>
      st := ClientLookup;
      w' := w.(cli := w.cli.(reader := if OnClient(w, id) then LWrite(id, data) else LIdle));
    case LWrite(_, _) => st, w' := ClientWrites(c, w);
  }

  lemma LoopTakesFrame(c: Config, w: World) returns (w': World)
    requires w.cli.reader == LIdle && w.down.queue != []
    ensures Next(c, w, ClientReceive, w')
  {
    hide ServerNext, LocalNext;
    var f := w.down.queue[0];
    var u := Unpack(c.clientUnpacks, c.lz4, f);
    var pc := match f
              case New(id, udp) => LDial(id, udp)
              case Close(id) => LClose(id)
              case Data(id, _) => LData(id, u.value)
              case Packed(id, _) => if u.Some? then LData(id, u.value) else LIdle
              case _ => LIdle;
    w' := w.(down := w.down.(queue := w.down.queue[1..]), cli := w.cli.(reader := pc));
  }

  lemma LocalSends(c: Config, w: World, id: Id) returns (st: Step, w': World)
    requires id in w.cli.pipes && (w.cli.pipes[id].pc.LGot? || w.cli.pipes[id].pc.LOweClose?)
    ensures (st.LocalWrite? || st.LocalClose?) && st.id == id && Next(c, w, st, w')
    ensures !w.up.broken ==> Succeeds(st)
  {
    hide ServerNext, LoopNext, Shut, Fed, ConnAt, Pack, Send;
    var ok := !w.up.broken;
    if w.cli.pipes[id].pc.LGot? {
      st := Step.LocalWrite(id, ok);
      w' := w.(up := Send(w.up, Pack(c.clientPacks, c.lz4, id, w.cli.pipes[id].pc.chunk), ok),
               cli := w.cli.(pipes := Moved(w.cli.pipes, id, if ok then LPiping else LOweClose)));
    } else {
      st := Step.LocalClose(id, ok);
      w' := w.(up := Send(w.up, Frame.Close(id), ok), cli := w.cli.(pipes := Moved(w.cli.pipes, id, LRemove)));
    }
  }

  /** A local pipe goes on as one on the server does. */
  lemma LocalGoesOn(c: Config, w: World, id: Id) returns (st: Step, w': World)
    requires id in w.cli.pipes && !w.cli.pipes[id].pc.LUnstarted? && !w.cli.pipes[id].pc.LExited?
    ensures LocalStep(st) && !st.LocalRead? && st.id == id && Next(c, w, st, w')
    ensures w.cli.pipes[id].pc != LPiping ==> !st.LocalExit?
    ensures !w.up.broken ==> Succeeds(st)
  {
    hide ServerNext, LoopNext, Shut, Fed, ConnAt, Pack, Send;
    match w.cli.pipes[id].pc
    case LPiping => st, w' := Step.LocalExit(id), w.(cli := w.cli.(pipes := Moved(w.cli.pipes, id, LOweClose)));
    case LGot(chunk) => st, w' := LocalSends(c, w, id);
    case LOweClose => st, w' := LocalSends(c, w, id);
    case LRemove => st, w' := Step.LocalRemove(id), LocalRemoved(w, id);
    case LShut =>
      st, w' := Step.LocalShut(id),
                w.(loc := Shut(w.loc, id), cli := w.cli.(pipes := Moved(w.cli.pipes, id, LExited)));
  }

  lemma LocalTakesChunk(c: Config, w: World, id: Id, chunk: Bytes) returns (w': World)
    requires LocalAt(w.cli.pipes, id, LPiping) && ConnAt(w.loc, id).open
    requires if w.cli.pipes[id].udp then |chunk| <= UDP_CHUNK else 0 < |chunk| <= TCP_CHUNK
    ensures Next(c, w, Step.LocalRead(id, chunk), w')
  {
    hide ServerNext, LoopNext;
    w' := w.(loc := Fed(w.loc, id, chunk), cli := w.cli.(pipes := Moved(w.cli.pipes, id, LGot(chunk))));
  }

  // ---------------------------------------------------------------- no deadlock

  /** Steps by which something new enters the link or a pipe ends; every other step carries on with what is there. */
  predicate Enters(st: Step) {
    || st.Admit? || st.PipeRead? || st.UdpHit? || st.UdpAdmit? || st.CleanLock? || st.ClientPing? || st.LocalRead?
    || st.PipeEof? || st.LocalExit? || st.OtherDraw?
  }

  /** The goroutines in the maps are goroutines that were started. */
  ghost predicate Real(w: World) {
    && (forall id :: id in w.srv.accepting ==> !w.srv.accepting[id].Unseen?)
    && (forall id :: id in w.srv.pipes ==> !w.srv.pipes[id].Unstarted?)
    && (forall id :: id in w.cli.pipes ==> !w.cli.pipes[id].pc.LUnstarted?)
  }

  lemma AcceptStaysReal(c: Config, w: World, st: Step, w': World)
    requires Real(w) && AcceptNext(c, w, st, w')
    ensures Real(w')
  {
    hide Send, Shut;
  }

  lemma PipeStaysReal(c: Config, w: World, st: Step, w': World)
    requires Real(w) && PipeNext(c, w, st, w')
    ensures Real(w')
  {
    hide Send, Shut, Fed, Pack, ConnAt;
  }

  lemma LoopStaysReal(c: Config, w: World, st: Step, w': World)
    requires Real(w) && LoopNext(c, w, st, w') && w'.srv == w.srv
    ensures Real(w')
  {
    hide Send, Shut, Writes, Unpack;
  }

  lemma LocalStaysReal(c: Config, w: World, st: Step, w': World)
    requires Real(w) && LocalNext(c, w, st, w') && w'.srv == w.srv
    ensures Real(w')
  {
    hide Send, Shut, Fed, Pack, ConnAt;
  }

  lemma StaysReal(c: Config, w: World, st: Step, w': World)
    requires Real(w) && Next(c, w, st, w')
    ensures Real(w')
  {
    hide AcceptNext, PipeNext, ReaderNext, PacketNext, CleanNext, LoopNext, LocalNext, Real;
    StepMoves(c, w, st, w');
    if LocalStep(st) {
      LocalStaysReal(c, w, st, w');
    } else if LoopStep(st) {
      LoopStaysReal(c, w, st, w');
    } else if AcceptStep(st) {
      AcceptStaysReal(c, w, st, w');
    } else if PipeStep(st) {
      PipeStaysReal(c, w, st, w');
    } else {
      if ReaderStep(st) {
        ReaderLeaves(c, w, st, w');
      } else if PacketStep(st) {
        PacketLeaves(c, w, st, w');
      } else if CleanStep(st) {
        CleanLeaves(c, w, st, w');
      }
      SameMapsReal(w, w');
    }
  }

  lemma SameMapsReal(w: World, w': World)
    requires Real(w) && w'.cli == w.cli && w'.srv.accepting == w.srv.accepting && w'.srv.pipes == w.srv.pipes
    ensures Real(w')
  {}

  lemma {:induction false} RunReal(c: Config, ws: seq<World>, sts: seq<Step>, i: nat)
    requires Run(c, ws, sts) && i < |ws|
    ensures Real(ws[i])
  {
    hide Next;
    if i > 0 {
      assert Next(c, ws[i - 1], sts[i - 1], ws[i - 1 + 1]);
      RunReal(c, ws, sts, i - 1);
      hide Run;
      StaysReal(c, ws[i - 1], sts[i - 1], ws[i]);
    }
  }

  /** While both streams work, a state that is not at rest can go on without anything new entering. */
  lemma NoDeadlock(c: Config, ws: seq<World>, sts: seq<Step>, i: nat) returns (st: Step, w': World)
    requires Sound(c) && Run(c, ws, sts) && i < |ws| && (ws[i].srv.udpReader.UAdmitted? ==> CanDraw(ws[i]))
    requires !Quiet(ws[i]) && !ws[i].down.broken && !ws[i].up.broken
    ensures !Enters(st) && !st.Number? && Succeeds(st) && Next(c, ws[i], st, w')
  {
    hide Next, Run, Good;
    RunReal(c, ws, sts, i);
    RunGood(c, ws, sts, i);
    st, w' := GoesOn(c, ws[i]);
  }

  /** No accept goroutine has given up while the stream works. */
  lemma NobodyReturned(c: Config, w: World, id: Id)
    requires Good(c, w) && !w.down.broken && id in w.srv.accepting
    ensures w.srv.accepting[id] != Returned
  {
    assert Local(ViewOf(c.lz4, w, id));
  }

  lemma GoesOn(c: Config, w: World) returns (st: Step, w': World)
    requires Good(c, w) && Real(w) && !Quiet(w) && !w.down.broken && !w.up.broken
    requires w.srv.udpReader.UAdmitted? ==> CanDraw(w)
    ensures !Enters(st) && !st.Number? && Succeeds(st) && Next(c, w, st, w')
  {
    hide Next, Good;
    if !UdpFree(w) {
      st, w' := LockHolderGoesOn(c, w);
    } else if w.srv.reader != SIdle {
      st, w' := ReaderGoesOn(c, w);
    } else if w.cli.reader != LIdle {
      st, w' := LoopGoesOn(c, w);
    } else if w.up.queue != [] {
      st := ServerReceive;
      w' := ReaderTakesFrame(c, w);
    } else if w.down.queue != [] {
      st := ClientReceive;
      w' := LoopTakesFrame(c, w);
    } else {
      st, w' := GoroutineGoesOn(c, w);
    }
  }

  lemma GoroutineGoesOn(c: Config, w: World) returns (st: Step, w': World)
    requires Good(c, w) && Real(w) && !w.down.broken && !w.up.broken && !Quiet(w) && UdpFree(w)
    requires w.srv.reader == SIdle && w.cli.reader == LIdle && w.up.queue == [] && w.down.queue == []
    ensures !Enters(st) && !st.Number? && Succeeds(st) && Next(c, w, st, w')
  {
    hide Next, Good;
    if id :| id in w.srv.accepting && w.srv.accepting[id] != Announced {
      NobodyReturned(c, w, id);
      st, w' := AcceptGoesOn(c, w, id);
    } else if id :| id in w.srv.pipes && w.srv.pipes[id] != Piping && w.srv.pipes[id] != Exited {
      st, w' := PipeGoesOn(c, w, id);
    } else {
      var id :| id in w.cli.pipes && w.cli.pipes[id].pc != LPiping && w.cli.pipes[id].pc != LExited;
      st, w' := LocalGoesOn(c, w, id);
    }
  }
}
