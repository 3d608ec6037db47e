/**
 * What is read at one end is what the frames of its channel carry: chunk by chunk for a TCP channel, datagram by
 * datagram for a UDP session. The lists on the left are read off the steps and the session table alone.
 */
module RelayCarriage {
  import opened Options
  import opened RelayTypes
  import opened RelayMachine
  import opened RelayInvariant
  import opened RelaySteps
  import opened RelayStreams
  import opened RelayRuns

  // ---------------------------------------------------------------- the lists compared

  /** What the data frames of channel `id` carry, one entry a frame. */
  function Carried(z: Lz4, log: seq<Frame>, id: Id): seq<Bytes> {
    if log == [] then []
    else
      var f := log[|log| - 1];
      Carried(z, log[..|log| - 1], id) + if IsData(f, id) then [Plain(z, f)] else []
  }

  /** What the first `i` steps read from the external connection `id`. */
  function PipeReads(sts: seq<Step>, i: nat, id: Id): seq<Bytes>
    requires i <= |sts|
  {
    if i == 0 then []
    else PipeReads(sts, i - 1, id)
         + if sts[i - 1].PipeRead? && sts[i - 1].id == id then [sts[i - 1].chunk] else []
  }

  /** What they read from the local connection `id`. */
  function LocalReads(sts: seq<Step>, i: nat, id: Id): seq<Bytes>
    requires i <= |sts|
  {
    if i == 0 then []
    else LocalReads(sts, i - 1, id)
         + if sts[i - 1].LocalRead? && sts[i - 1].id == id then [sts[i - 1].chunk] else []
  }

  /** The packet that last got past the limiter, and where it came from. */
  function LastAdmitted(sts: seq<Step>, i: nat): Option<(Key, Bytes)>
    requires i <= |sts|
  {
    if i == 0 then None
    else if sts[i - 1].UdpAdmit? then Some((sts[i - 1].key, sts[i - 1].data))
    else LastAdmitted(sts, i - 1)
  }

  predicate Holds(sessions: map<Key, Id>, key: Key, id: Id) { key in sessions && sessions[key] == id }

  /** The packet that step `i` attributes to session `id`: its address holds the id when the packet arrives, or is
      given it for the packet. */
  function Arrival(ws: seq<World>, sts: seq<Step>, i: nat, id: Id): seq<Bytes>
    requires i < |sts| < |ws|
  {
    match sts[i]
    case UdpHit(key, data) => if Holds(ws[i].srv.sessions, key, id) then [data] else []
    case UdpInsert =>
      var p := LastAdmitted(sts, i);
      if p.Some? && Holds(ws[i + 1].srv.sessions, p.value.0, id) then [p.value.1] else []
    case _ => []
  }

  /** The packets of session `id` that got past the limiter, in order of arrival. */
  function Arrivals(ws: seq<World>, sts: seq<Step>, i: nat, id: Id): seq<Bytes>
    requires i <= |sts| < |ws|
  {
    if i == 0 then [] else Arrivals(ws, sts, i - 1, id) + Arrival(ws, sts, i - 1, id)
  }

  // ---------------------------------------------------------------- one more frame

  lemma CarriedSnoc(z: Lz4, log: seq<Frame>, f: Frame, id: Id)
    ensures Carried(z, log + [f], id) == Carried(z, log, id) + if IsData(f, id) then [Plain(z, f)] else []
  {
    assert (log + [f])[..|log|] == log;
  }

  /** Nothing is carried for a channel that was never announced. */
  lemma {:induction false} NothingCarried(z: Lz4, log: seq<Frame>, id: Id)
    requires NewsFirst(log) && !HasNew(log, id)
    ensures Carried(z, log, id) == []
  {
    if log != [] {
      var n := |log| - 1;
      assert forall f :: f in log[..n] ==> f in log;
      assert forall j :: 0 <= j < n ==> log[..n][..j] == log[..j];
      NothingCarried(z, log[..n], id);
    }
  }

  function Added(z: Lz4, f: Option<(Frame, bool)>, id: Id): seq<Bytes> {
    if f.Some? && f.value.1 && IsData(f.value.0, id) then [Plain(z, f.value.0)] else []
  }

  lemma StreamCarries(z: Lz4, s: Stream, f: Option<(Frame, bool)>, read: bool, id: Id)
    requires f.Some? && f.value.1 ==> !s.broken
    ensures Carried(z, Advance(s, f, read).log, id) == Carried(z, s.log, id) + Added(z, f, id)
  {
    if f.Some? && f.value.1 { CarriedSnoc(z, s.log, f.value.0, id); }
  }

  // ---------------------------------------------------------------- external connections

  /** `sent` is `read` without its last entry, or all of it. */
  predicate AllButOne(sent: seq<Bytes>, read: seq<Bytes>) { sent <= read && |read| <= |sent| + 1 }

  predicate PipeCarries(sent: seq<Bytes>, read: seq<Bytes>, pc: PipePc) {
    match pc
    case Unstarted => sent == [] && read == []
    case Piping => sent == read
    case OweClose => sent == read
    case Got(chunk) => sent + [chunk] == read
    case _ => AllButOne(sent, read)
  }

  /** Where a pipe's step leaves it, and what the step adds to the stream. */
  lemma PipeSteps(c: Config, w: World, st: Step, w': World)
    requires PipeNext(c, w, st, w')
    ensures var pc, pc' := PipeOf(w.srv, st.id), PipeOf(w'.srv, st.id);
            match st
            case PipeRead(_, chunk) => pc == Piping && pc' == Got(chunk)
            case PipeWrite(_, ok) => pc.Got? && pc' == if ok then Piping else PipePc.Cleanup
            case PipeEof(_) => pc == Piping && pc' == OweClose
            case PipeClose(_, _) => pc == OweClose && pc' == PipePc.Cleanup
            case PipeRemove(_) => pc == PipePc.Cleanup && (pc' == Releasing || pc' == Exited)
            case _ => pc == Releasing && pc' == Exited
  {
    hide Send, Shut, Fed, Pack, ConnAt;
  }

  lemma PipeFrame(c: Config, w: World, st: Step)
    requires Lawful(c.lz4) && PipeStep(st) && (st.PipeWrite? ==> PipeOf(w.srv, st.id).Got?)
    ensures Added(c.lz4, DownFrame(c, w, st), st.id)
            == if st.PipeWrite? && st.ok then [PipeOf(w.srv, st.id).chunk] else []
  {
    if st.PipeWrite? { Packing(c.lz4, c.serverPacks, st.id, w.srv.pipes[st.id].chunk); }
    hide Pack, Plain, Lawful;
  }

  lemma PipeAdds(c: Config, w: World, st: Step, w': World)
    requires PipeNext(c, w, st, w') && Lawful(c.lz4)
    ensures Carried(c.lz4, w'.down.log, st.id) ==
            Carried(c.lz4, w.down.log, st.id)
            + if st.PipeWrite? && st.ok && PipeOf(w.srv, st.id).Got? then [PipeOf(w.srv, st.id).chunk] else []
  {
    assert PipeStep(st);
    hide Carried, Added, DownFrame, PipeOf, Lawful, PipeNext;
    PipeLeaves(c, w, st, w');
    PipeSteps(c, w, st, w');
    StreamCarries(c.lz4, w.down, DownFrame(c, w, st), st.ClientReceive?, st.id);
    PipeFrame(c, w, st);
  }

  lemma PipeStepCarries(c: Config, w: World, st: Step, w': World, read: seq<Bytes>)
    requires PipeNext(c, w, st, w') && Lawful(c.lz4)
    requires PipeCarries(Carried(c.lz4, w.down.log, st.id), read, PipeOf(w.srv, st.id))
    ensures PipeCarries(Carried(c.lz4, w'.down.log, st.id), read + if st.PipeRead? then [st.chunk] else [],
                        PipeOf(w'.srv, st.id))
  {
    hide PipeNext, Carried, PipeOf;
    PipeSteps(c, w, st, w');
    PipeAdds(c, w, st, w');
  }

  /** Frames of a TCP channel are written by its own pipe. */
  lemma NoOtherPipe(c: Config, w: World, st: Step, w': World, id: Id)
    requires Ids(w) && Next(c, w, st, w') && id !in w.srv.udpIds && !(PipeStep(st) && st.id == id)
    ensures Carried(c.lz4, w'.down.log, id) == Carried(c.lz4, w.down.log, id)
  {
    hide Next, Ids, Carried, Added, DownFrame;
    StepMoves(c, w, st, w');
    StreamCarries(c.lz4, w.down, DownFrame(c, w, st), st.ClientReceive?, id);
    OtherFrames(c, w, st, id);
  }

  /** A step that is neither the channel's pipe's nor the packet loop's for this id adds nothing to it. */
  lemma OtherFrames(c: Config, w: World, st: Step, id: Id)
    requires Ids(w)
    requires if id in w.srv.udpIds then !PacketStep(st) else !(PipeStep(st) && st.id == id)
    ensures Added(c.lz4, DownFrame(c, w, st), id) == []
  {
    hide Plain;
  }

  lemma PipeElsewhere(c: Config, w: World, st: Step, w': World, id: Id)
    requires Next(c, w, st, w') && !(PipeStep(st) && st.id == id) && !(st.Announce? && st.id == id)
    ensures PipeOf(w'.srv, id) == PipeOf(w.srv, id)
  {
    hide AcceptNext, PipeNext, ReaderNext, PacketNext, CleanNext, ClientNext;
    if st.OtherDraw? || ClientStep(st) {
      StepMoves(c, w, st, w');
    } else if AcceptStep(st) {
      AcceptsPipe(c, w, st, w', id);
    } else if PipeStep(st) {
      PipesPipe(c, w, st, w', id);
    } else if ReaderStep(st) {
      ReaderLeaves(c, w, st, w');
    } else if PacketStep(st) {
      PacketLeaves(c, w, st, w');
    } else {
      CleanLeaves(c, w, st, w');
    }
  }

  lemma AcceptsPipe(c: Config, w: World, st: Step, w': World, id: Id)
    requires AcceptNext(c, w, st, w') && !(st.Announce? && st.id == id)
    ensures PipeOf(w'.srv, id) == PipeOf(w.srv, id)
  {
    hide Send, Shut;
  }

  lemma PipesPipe(c: Config, w: World, st: Step, w': World, id: Id)
    requires PipeNext(c, w, st, w') && st.id != id
    ensures PipeOf(w'.srv, id) == PipeOf(w.srv, id)
  {
    hide Send, Shut, Fed, Pack, ConnAt;
  }

  lemma AnnounceStarts(c: Config, w: World, id: Id, ok: bool, w': World)
    requires Next(c, w, Step.Announce(id, ok), w')
    ensures At(w.srv.accepting, id, Inserted) && (ok ==> !w.down.broken)
    ensures w'.down == Send(w.down, New(id, false), ok)
    ensures PipeOf(w'.srv, id) == if ok then Piping else PipeOf(w.srv, id)
  {
    hide ClientNext, PipeNext, ReaderNext, PacketNext, CleanNext, Send;
  }

  lemma UntilAnnounced(c: Config, w: World, id: Id)
    requires Channels(c, w) && At(w.srv.accepting, id, Inserted)
    ensures !HasNew(w.down.log, id) && PipeOf(w.srv, id) == Unstarted
  {
    assert Local(ViewOf(c.lz4, w, id));
  }

  lemma StreamOrder(c: Config, w: World)
    requires Streams(c, w)
    ensures NewsFirst(w.down.log)
  {}

  /** Until its announcement nothing is carried for a channel. */
  lemma AnnounceCarries(c: Config, w: World, id: Id, ok: bool, w': World)
    requires Channels(c, w) && Streams(c, w) && Next(c, w, Step.Announce(id, ok), w')
    ensures Carried(c.lz4, w'.down.log, id) == [] && PipeOf(w.srv, id) == Unstarted
    ensures PipeOf(w'.srv, id) == if ok then Piping else Unstarted
  {
    hide Next, Channels, Streams, HasNew, NewsFirst, PipeOf;
    AnnounceStarts(c, w, id, ok, w');
    UntilAnnounced(c, w, id);
    StreamOrder(c, w);
    NothingCarried(c.lz4, w.down.log, id);
    if ok { CarriedSnoc(c.lz4, w.down.log, New(id, false), id); }
  }

  lemma AnnouncedCarries(c: Config, w: World, id: Id, ok: bool, w': World, read: seq<Bytes>)
    requires Channels(c, w) && Streams(c, w) && Next(c, w, Step.Announce(id, ok), w')
    requires PipeCarries(Carried(c.lz4, w.down.log, id), read, PipeOf(w.srv, id))
    ensures PipeCarries(Carried(c.lz4, w'.down.log, id), read, PipeOf(w'.srv, id))
  {
    hide Next, Streams, Channels, Carried, PipeOf;
    AnnounceCarries(c, w, id, ok, w');
  }

  lemma PipeStepKeeps(c: Config, w: World, st: Step, w': World, id: Id, read: seq<Bytes>)
    requires Channels(c, w) && Streams(c, w) && Ids(w) && Sound(c) && Next(c, w, st, w') && id !in w.srv.udpIds
    requires PipeCarries(Carried(c.lz4, w.down.log, id), read, PipeOf(w.srv, id))
    ensures PipeCarries(Carried(c.lz4, w'.down.log, id), read + if st.PipeRead? && st.id == id then [st.chunk] else [],
                        PipeOf(w'.srv, id))
  {
    hide Next, Streams, Channels, Ids, Carried, PipeCarries, PipeOf, Lawful;
    assert read + [] == read;
    if st.Announce? && st.id == id {
      AnnouncedCarries(c, w, id, st.ok, w', read);
    } else if PipeStep(st) && st.id == id {
      ItsOwnPipe(c, w, st, w');
      PipeStepCarries(c, w, st, w', read);
    } else {
      NoOtherPipe(c, w, st, w', id);
      PipeElsewhere(c, w, st, w', id);
    }
  }

  lemma NothingPiped(c: Config, ws: seq<World>, sts: seq<Step>, id: Id)
    requires Run(c, ws, sts)
    ensures PipeCarries(Carried(c.lz4, ws[0].down.log, id), PipeReads(sts, 0, id), PipeOf(ws[0].srv, id))
  {
    hide Next;
  }

  /** Chunk for chunk, the frames of a TCP channel carry what its pipe read from the external connection; a failed
      write loses the last chunk and ends the pipe. */
  lemma {:induction false} PipesCarry(c: Config, ws: seq<World>, sts: seq<Step>, i: nat, id: Id)
    requires Sound(c) && Run(c, ws, sts) && i < |ws| && id !in ws[i].srv.udpIds
    ensures PipeCarries(Carried(c.lz4, ws[i].down.log, id), PipeReads(sts, i, id), PipeOf(ws[i].srv, id))
  {
    hide *;
    RunLength(c, ws, sts);
    if i == 0 {
      NothingPiped(c, ws, sts, id);
    } else {
      RunStep(c, ws, sts, i - 1);
      RunParts(c, ws, sts, i - 1);
      UdpIdsStay(c, ws[i - 1], sts[i - 1], ws[i]);
      PipesCarry(c, ws, sts, i - 1, id);
      PipeReadsNext(sts, i - 1, id);
      PipeStepKeeps(c, ws[i - 1], sts[i - 1], ws[i], id, PipeReads(sts, i - 1, id));
    }
  }

  lemma PipeReadsNext(sts: seq<Step>, i: nat, id: Id)
    requires i < |sts|
    ensures PipeReads(sts, i + 1, id)
            == PipeReads(sts, i, id) + if sts[i].PipeRead? && sts[i].id == id then [sts[i].chunk] else []
    ensures LocalReads(sts, i + 1, id)
            == LocalReads(sts, i, id) + if sts[i].LocalRead? && sts[i].id == id then [sts[i].chunk] else []
  {}

  lemma ItsOwnPipe(c: Config, w: World, st: Step, w': World)
    requires Next(c, w, st, w') && PipeStep(st)
    ensures PipeNext(c, w, st, w')
  {
    hide PipeNext;
  }

  lemma UdpIdsStay(c: Config, w: World, st: Step, w': World)
    requires Next(c, w, st, w')
    ensures w.srv.udpIds <= w'.srv.udpIds
  {
    hide AcceptNext, PipeNext, ReaderNext, CleanNext, ClientNext;
    if st.UdpInsert? {
      assert DoUdpInsert(w, w');
    } else {
      StepMoves(c, w, st, w');
    }
  }

  // ---------------------------------------------------------------- UDP sessions

  predicate PacketsCarry(sent: seq<Bytes>, read: seq<Bytes>, r: UdpReader, id: Id) {
    match r
    case UInserted(i, data) => if i == id then sent + [data] == read else sent == read
    case USend(i, data) => if i == id then sent + [data] == read else sent == read
    case UStopped => AllButOne(sent, read)
    case _ => sent == read
  }

  /** The packet in hand is the one last admitted. */
  lemma {:induction false} AdmittedIsLast(c: Config, ws: seq<World>, sts: seq<Step>, i: nat)
    requires Run(c, ws, sts) && i < |ws| && ws[i].srv.udpReader.UAdmitted?
    ensures LastAdmitted(sts, i) == Some((ws[i].srv.udpReader.key, ws[i].srv.udpReader.data))
  {
    if i > 0 {
      assert Next(c, ws[i - 1], sts[i - 1], ws[i - 1 + 1]);
      var w, st, w' := ws[i - 1], sts[i - 1], ws[i];
      if PacketStep(st) {
        hide Run;
        Admits(c, w, st, w');
      } else {
        hide Next;
        StepMoves(c, w, st, w');
        AdmittedIsLast(c, ws, sts, i - 1);
      }
    }
  }

  lemma Admits(c: Config, w: World, st: Step, w': World)
    requires Next(c, w, st, w') && PacketStep(st) && w'.srv.udpReader.UAdmitted?
    ensures st == UdpAdmit(w'.srv.udpReader.key, w'.srv.udpReader.data)
  {
    hide Send, Pack, UdpFree;
    hide ClientNext, AcceptNext, PipeNext, ReaderNext, CleanNext;
  }

  /** Where a packet step leaves the reader. */
  lemma PacketSteps(c: Config, w: World, st: Step, w': World)
    requires Next(c, w, st, w') && PacketStep(st)
    ensures var r, r' := w.srv.udpReader, w'.srv.udpReader;
            match st
            case UdpHit(key, data) =>
              r == UIdle && key in w.srv.sessions && r' == USend(w.srv.sessions[key], data)
            case UdpAdmit(key, data) => r == UIdle && r' == UAdmitted(key, data)
            case UdpInsert =>
              r.UAdmitted? && r' == UInserted(w.next + 1, r.data)
              && w'.srv.sessions == w.srv.sessions[r.key := w.next + 1]
              && w'.srv.udpIds == w.srv.udpIds + {w.next + 1}
            case UdpAnnounce(_) => r.UInserted? && r' == USend(r.id, r.data)
            case _ => r.USend? && r' == if st.ok then UIdle else UStopped
  {
    hide Send, Pack, UdpFree;
    hide ClientNext, AcceptNext, PipeNext, ReaderNext, CleanNext;
  }

  lemma PacketFrame(c: Config, w: World, st: Step, id: Id)
    requires Lawful(c.lz4) && PacketStep(st) && (st.UdpWrite? ==> w.srv.udpReader.USend?)
    ensures Added(c.lz4, DownFrame(c, w, st), id)
            == if st.UdpWrite? && st.ok && w.srv.udpReader.id == id then [w.srv.udpReader.data] else []
  {
    if st.UdpWrite? { Packing(c.lz4, c.serverPacks, w.srv.udpReader.id, w.srv.udpReader.data); }
    hide Pack, Plain, Lawful;
  }

  /** Frames of a session are written by the packet loop. */
  lemma NoPipe(c: Config, w: World, st: Step, w': World, id: Id)
    requires Ids(w) && Next(c, w, st, w') && id in w.srv.udpIds && !PacketStep(st)
    ensures Carried(c.lz4, w'.down.log, id) == Carried(c.lz4, w.down.log, id)
  {
    hide Next, Ids, Carried, Added, DownFrame;
    StepMoves(c, w, st, w');
    StreamCarries(c.lz4, w.down, DownFrame(c, w, st), st.ClientReceive?, id);
    OtherFrames(c, w, st, id);
  }

  lemma PacketAdds(c: Config, w: World, st: Step, w': World, id: Id)
    requires Next(c, w, st, w') && PacketStep(st) && Lawful(c.lz4)
    ensures Carried(c.lz4, w'.down.log, id) ==
            Carried(c.lz4, w.down.log, id)
            + if st.UdpWrite? && st.ok && w.srv.udpReader.USend? && w.srv.udpReader.id == id
              then [w.srv.udpReader.data] else []
  {
    hide Carried, Added, DownFrame, Lawful, Next;
    PacketSteps(c, w, st, w');
    StepMoves(c, w, st, w');
    StreamCarries(c.lz4, w.down, DownFrame(c, w, st), st.ClientReceive?, id);
    PacketFrame(c, w, st, id);
  }

  /** A packet is attributed to the session that the packet loop then sends it for. */
  lemma ArrivalIsSent(c: Config, ws: seq<World>, sts: seq<Step>, i: nat, id: Id)
    requires Sound(c) && Run(c, ws, sts) && i < |sts| && PacketStep(sts[i])
    ensures var r, r' := ws[i].srv.udpReader, ws[i + 1].srv.udpReader;
            Arrival(ws, sts, i, id) ==
            if r.UIdle? && r'.USend? && r'.id == id then [r'.data]
            else if r.UAdmitted? && r'.UInserted? && r'.id == id then [r'.data]
            else []
  {
    assert Next(c, ws[i], sts[i], ws[i + 1]);
    hide Run, Next;
    PacketSteps(c, ws[i], sts[i], ws[i + 1]);
    if sts[i].UdpInsert? { AdmittedIsLast(c, ws, sts, i); }
  }

  lemma PacketStepCarries(c: Config, ws: seq<World>, sts: seq<Step>, i: nat, id: Id)
    requires Sound(c) && Run(c, ws, sts) && i < |sts| && PacketStep(sts[i])
    requires id in ws[i].srv.udpIds
    requires PacketsCarry(Carried(c.lz4, ws[i].down.log, id), Arrivals(ws, sts, i, id), ws[i].srv.udpReader, id)
    ensures PacketsCarry(Carried(c.lz4, ws[i + 1].down.log, id), Arrivals(ws, sts, i + 1, id),
                         ws[i + 1].srv.udpReader, id)
  {
    hide Run, Next, Lawful, Carried, Arrival, Arrivals, Ids, Streams, Channels, Chunks;
    RunStep(c, ws, sts, i);
    var w, st, w' := ws[i], sts[i], ws[i + 1];
    RunParts(c, ws, sts, i);
    SessionsAreDrawn(w, id);
    ArrivalIsSent(c, ws, sts, i, id);
    ArrivalsNext(ws, sts, i, id);
    PacketSteps(c, w, st, w');
    PacketAdds(c, w, st, w', id);
  }

  lemma SessionsAreDrawn(w: World, id: Id)
    requires Ids(w) && id in w.srv.udpIds
    ensures id <= w.next
  {}

  lemma ArrivalsNext(ws: seq<World>, sts: seq<Step>, i: nat, id: Id)
    requires i < |sts| < |ws|
    ensures Arrivals(ws, sts, i + 1, id) == Arrivals(ws, sts, i, id) + Arrival(ws, sts, i, id)
    ensures Arrival(ws, sts, i, id) == [] ==> Arrivals(ws, sts, i + 1, id) == Arrivals(ws, sts, i, id)
  {}

  /** A session begins with the packet that opened it. */
  lemma SessionBegins(c: Config, ws: seq<World>, sts: seq<Step>, i: nat, id: Id)
    requires Sound(c) && Run(c, ws, sts) && i < |sts| && sts[i].UdpInsert? && id == ws[i].next + 1
    requires Arrivals(ws, sts, i, id) == []
    ensures PacketsCarry(Carried(c.lz4, ws[i + 1].down.log, id), Arrivals(ws, sts, i + 1, id),
                         ws[i + 1].srv.udpReader, id)
  {
    var w, st, w' := ws[i], sts[i], ws[i + 1];
    assert Next(c, w, st, w');
    RunGood(c, ws, sts, i);
    NotYetAnnounced(c, w);
    NothingCarried(c.lz4, w.down.log, id);
    hide Streams, Channels, Chunks, Run, Next, Lawful, Carried, HasNew, Arrival;
    PacketSteps(c, w, st, w');
    PacketAdds(c, w, st, w', id);
    ArrivalIsSent(c, ws, sts, i, id);
  }

  lemma ArrivalsAreSessions(c: Config, ws: seq<World>, sts: seq<Step>, i: nat, id: Id)
    requires Sound(c) && Run(c, ws, sts) && i < |sts| && Arrival(ws, sts, i, id) != []
    ensures PacketStep(sts[i]) && (id in ws[i].srv.udpIds || (sts[i].UdpInsert? && id == ws[i].next + 1))
  {
    assert Next(c, ws[i], sts[i], ws[i + 1]);
    RunGood(c, ws, sts, i);
    ArrivalIsSent(c, ws, sts, i, id);
    hide Streams, Channels, Chunks, Run, Next;
    PacketSteps(c, ws[i], sts[i], ws[i + 1]);
  }

  /** What one step makes of a session that exists, of the one it opens, and of an id that is no session's. */
  lemma SessionStep(c: Config, ws: seq<World>, sts: seq<Step>, i: nat, id: Id)
    requires Sound(c) && Run(c, ws, sts) && i < |sts|
    requires id !in ws[i].srv.udpIds ==> Arrivals(ws, sts, i, id) == []
    requires id in ws[i].srv.udpIds ==>
               PacketsCarry(Carried(c.lz4, ws[i].down.log, id), Arrivals(ws, sts, i, id), ws[i].srv.udpReader, id)
    ensures id !in ws[i + 1].srv.udpIds ==> Arrivals(ws, sts, i + 1, id) == []
    ensures id in ws[i + 1].srv.udpIds ==>
              PacketsCarry(Carried(c.lz4, ws[i + 1].down.log, id), Arrivals(ws, sts, i + 1, id),
                           ws[i + 1].srv.udpReader, id)
  {
    hide Run, Next, Carried, PacketsCarry, Arrival, Arrivals, Ids, Streams, Channels, Chunks, Lawful;
    RunStep(c, ws, sts, i);
    var w, st, w' := ws[i], sts[i], ws[i + 1];
    ArrivalsNext(ws, sts, i, id);
    UdpIdsStay(c, w, st, w');
    if Arrival(ws, sts, i, id) != [] { ArrivalsAreSessions(c, ws, sts, i, id); }
    if !PacketStep(st) {
      StepMoves(c, w, st, w');
      RunParts(c, ws, sts, i);
      if id in w.srv.udpIds { NoPipe(c, w, st, w', id); }
    } else if id in w.srv.udpIds {
      PacketStepCarries(c, ws, sts, i, id);
    } else if st.UdpInsert? {
      PacketSteps(c, w, st, w');
      if id == w.next + 1 { SessionBegins(c, ws, sts, i, id); }
    } else {
      StepMoves(c, w, st, w');
    }
  }

  /** Datagram for datagram, the frames of a session carry the packets that came from the address holding its id, in
      order of arrival; a failed write loses one packet and ends the loop. */
  lemma {:induction false} SessionsCarry(c: Config, ws: seq<World>, sts: seq<Step>, i: nat, id: Id)
    requires Sound(c) && Run(c, ws, sts) && i < |ws|
    ensures id !in ws[i].srv.udpIds ==> Arrivals(ws, sts, i, id) == []
    ensures id in ws[i].srv.udpIds ==>
              PacketsCarry(Carried(c.lz4, ws[i].down.log, id), Arrivals(ws, sts, i, id), ws[i].srv.udpReader, id)
  {
    hide Next, PacketsCarry, Carried, Arrival;
    if i > 0 {
      SessionsCarry(c, ws, sts, i - 1, id);
      SessionStep(c, ws, sts, i - 1, id);
    }
  }

  // ---------------------------------------------------------------- local connections

  predicate LocalCarries(sent: seq<Bytes>, read: seq<Bytes>, pc: LocalPc) {
    match pc
    case LUnstarted => sent == [] && read == []
    case LPiping => sent == read
    case LGot(chunk) => sent + [chunk] == read
    case _ => AllButOne(sent, read)
  }

  lemma LocalSteps(c: Config, w: World, st: Step, w': World)
    requires LocalNext(c, w, st, w')
    ensures var pc, pc' := LocalOf(w.cli, st.id).pc, LocalOf(w'.cli, st.id).pc;
            match st
            case LocalRead(_, chunk) => pc == LPiping && pc' == LGot(chunk)
            case LocalWrite(_, ok) => pc.LGot? && pc' == if ok then LPiping else LOweClose
            case LocalExit(_) => pc == LPiping && pc' == LOweClose
            case LocalClose(_, _) => pc == LOweClose && pc' == LRemove
            case LocalRemove(_) => pc == LRemove && pc' == LShut
            case _ => pc == LShut && pc' == LExited
  {
    hide Send, Shut, Fed, Pack, ConnAt;
  }

  lemma LocalFrame(c: Config, w: World, st: Step, id: Id)
    requires Lawful(c.lz4) && (st.LocalWrite? ==> LocalOf(w.cli, st.id).pc.LGot?)
    ensures Added(c.lz4, UpFrame(c, w, st), id)
            == if st.LocalWrite? && st.ok && st.id == id then [LocalOf(w.cli, st.id).pc.chunk] else []
  {
    if st.LocalWrite? { Packing(c.lz4, c.clientPacks, st.id, w.cli.pipes[st.id].pc.chunk); }
    hide Pack, Plain, Lawful;
  }

  lemma LocalStepCarries(c: Config, w: World, st: Step, w': World, read: seq<Bytes>)
    requires LocalNext(c, w, st, w') && Lawful(c.lz4)
    requires LocalCarries(Carried(c.lz4, w.up.log, st.id), read, LocalOf(w.cli, st.id).pc)
    ensures LocalCarries(Carried(c.lz4, w'.up.log, st.id), read + if st.LocalRead? then [st.chunk] else [],
                         LocalOf(w'.cli, st.id).pc)
  {
    assert LocalStep(st);
    hide LocalNext, Carried, LocalOf, Lawful, Added, UpFrame;
    LocalSteps(c, w, st, w');
    LocalLeaves(c, w, st, w');
    StreamCarries(c.lz4, w.up, UpFrame(c, w, st), st.ServerReceive?, st.id);
    LocalFrame(c, w, st, st.id);
  }

  lemma ItsOwnLocal(c: Config, w: World, st: Step, w': World)
    requires Next(c, w, st, w') && LocalStep(st)
    ensures LocalNext(c, w, st, w')
  {
    hide LocalNext;
  }

  lemma LocalElsewhere(c: Config, w: World, st: Step, w': World, id: Id)
    requires Next(c, w, st, w') && !(LocalStep(st) && st.id == id)
    requires !(st.ClientReady? && w.cli.reader.LCounted? && w.cli.reader.id == id)
    ensures LocalOf(w'.cli, id).pc == LocalOf(w.cli, id).pc
  {
    hide ServerNext;
    if LocalStep(st) {
      hide LoopNext, Send, Shut, Fed, Pack, ConnAt;
    } else if LoopStep(st) {
      hide LocalNext, Send, Shut, Writes, Unpack;
    } else {
      hide Next;
      StepMoves(c, w, st, w');
    }
  }

  /** Frames of a channel towards the server are written by its own pipe. */
  lemma NoOtherLocal(c: Config, w: World, st: Step, w': World, id: Id)
    requires Next(c, w, st, w') && !(LocalStep(st) && st.id == id) && Lawful(c.lz4)
    ensures Carried(c.lz4, w'.up.log, id) == Carried(c.lz4, w.up.log, id)
  {
    hide Next;
    StepMoves(c, w, st, w');
    StreamCarries(c.lz4, w.up, UpFrame(c, w, st), st.ServerReceive?, id);
    hide Carried, Plain;
  }

  lemma CountedIsUnstarted(c: Config, w: World)
    requires Channels(c, w) && w.cli.reader.LCounted?
    ensures LocalOf(w.cli, w.cli.reader.id).pc == LUnstarted
  {
    assert Local(ViewOf(c.lz4, w, w.cli.reader.id));
  }

  lemma ReadyStarts(c: Config, w: World, ok: bool, w': World, id: Id)
    requires Channels(c, w) && Next(c, w, ClientReady(ok), w') && w.cli.reader.LCounted? && w.cli.reader.id == id
    ensures LocalOf(w.cli, id).pc == LUnstarted
    ensures LocalOf(w'.cli, id).pc == if ok then LPiping else LUnstarted
  {
    hide ServerNext, LocalNext, Channels, Send;
    CountedIsUnstarted(c, w);
  }

  lemma LocalStepKeeps(c: Config, w: World, st: Step, w': World, id: Id, read: seq<Bytes>)
    requires Channels(c, w) && Sound(c) && Next(c, w, st, w')
    requires LocalCarries(Carried(c.lz4, w.up.log, id), read, LocalOf(w.cli, id).pc)
    ensures LocalCarries(Carried(c.lz4, w'.up.log, id),
                         read + if st.LocalRead? && st.id == id then [st.chunk] else [], LocalOf(w'.cli, id).pc)
  {
    if LocalStep(st) && st.id == id {
      ItsOwnLocal(c, w, st, w');
      hide Next, Carried, LocalCarries;
      LocalStepCarries(c, w, st, w', read);
    } else {
      hide Next, Channels, Carried, LocalOf;
      NoOtherLocal(c, w, st, w', id);
      if st.ClientReady? && w.cli.reader.LCounted? && w.cli.reader.id == id {
        ReadyStarts(c, w, st.ok, w', id);
      } else {
        LocalElsewhere(c, w, st, w', id);
      }
    }
  }

  /** Chunk for chunk, the frames of a channel towards the server carry what its pipe read from the local connection;
      a failed write loses the last chunk and ends the pipe. */
  lemma {:induction false} LocalsCarry(c: Config, ws: seq<World>, sts: seq<Step>, i: nat, id: Id)
    requires Sound(c) && Run(c, ws, sts) && i < |ws|
    ensures LocalCarries(Carried(c.lz4, ws[i].up.log, id), LocalReads(sts, i, id), LocalOf(ws[i].cli, id).pc)
  {
    hide *;
    RunLength(c, ws, sts);
    if i == 0 {
      NothingReadLocally(c, ws, sts, id);
    } else {
      RunStep(c, ws, sts, i - 1);
      RunParts(c, ws, sts, i - 1);
      LocalsCarry(c, ws, sts, i - 1, id);
      PipeReadsNext(sts, i - 1, id);
      LocalStepKeeps(c, ws[i - 1], sts[i - 1], ws[i], id, LocalReads(sts, i - 1, id));
    }
  }

  lemma NothingReadLocally(c: Config, ws: seq<World>, sts: seq<Step>, id: Id)
    requires Run(c, ws, sts)
    ensures LocalCarries(Carried(c.lz4, ws[0].up.log, id), LocalReads(sts, 0, id), LocalOf(ws[0].cli, id).pc)
  {
    hide Next;
  }
}
