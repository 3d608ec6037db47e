/**
 * The link comes to rest: while nothing new enters, every step uses up some of the work at hand, so there are only
 * so many of them; and where no step is left, and both streams work, nothing is in flight.
 */
module RelayRest {
  import opened Options
  import opened RelayTypes
  import opened RelayMachine
  import opened RelayInvariant
  import opened RelaySteps
  import opened RelayStreams
  import opened RelayRuns
  import opened RelayTheorems
  import opened RelayCarriage
  import opened RelayDelivery
  import opened RelayProgress

  // ---------------------------------------------------------------- sums over maps

  ghost function Total(m: map<Id, nat>): nat
    decreases |m|
  {
    if m == map[] then 0
    else
      var k :| k in m;
      Dropped(m, k);
      m[k] + Total(m - {k})
  }

  lemma Dropped(m: map<Id, nat>, k: Id)
    requires k in m
    ensures |m - {k}| == |m| - 1
  {
    assert (m - {k}).Keys == m.Keys - {k};
    assert |m| == |m.Keys|;
  }

  lemma {:induction false} TotalWithout(m: map<Id, nat>, k: Id)
    requires k in m
    ensures Total(m) == m[k] + Total(m - {k})
    decreases |m|
  {
    var l :| l in m && Total(m) == m[l] + Total(m - {l});
    if l != k {
      Dropped(m, l);
      Dropped(m, k);
      TotalWithout(m - {l}, k);
      TotalWithout(m - {k}, l);
      assert m - {l} - {k} == m - {k} - {l};
    }
  }

  lemma TotalUpdate(m: map<Id, nat>, k: Id, v: nat)
    ensures Total(m[k := v]) == Total(m) + v - if k in m then m[k] else 0
  {
    TotalWithout(m[k := v], k);
    assert m[k := v] - {k} == m - {k};
    if k in m { TotalWithout(m, k); } else { assert m - {k} == m; }
  }

  // ---------------------------------------------------------------- work at hand

  /** What a frame makes its reader do, and one for reading it. */
  function Weight(f: Frame): nat {
    match f
    case New(_, _) => 8
    case Close(_) => 5
    case Data(_, _) => 3
    case Packed(_, _) => 3
    case Ping => 3
    case _ => 1
  }

  function QueueWork(q: seq<Frame>): nat { if q == [] then 0 else Weight(q[0]) + QueueWork(q[1..]) }

  function AcceptWork(pc: AcceptPc): nat {
    match pc
    case Numbered => 10
    case Inserted => 9
    case SendFailed => 2
    case Dropped => 1
    case _ => 0
  }

  function PipeWork(pc: PipePc): nat {
    match pc
    case OweClose => 8
    case Got(_) => 4
    case Cleanup => 2
    case Releasing => 1
    case _ => 0
  }

  function LocalWork(pc: LocalPc): nat {
    match pc
    case LGot(_) => 9
    case LOweClose => 8
    case LRemove => 2
    case LShut => 1
    case _ => 0
  }

  function ReaderWork(r: ServerReader): nat {
    match r
    case SIdle => 0
    case SPong => 2
    case SClose(_) => 4
    case SRelease(_) => 3
    case SUdp(_) => 2
    case SUdpRelease(_) => 1
    case SData(_, _) => 2
    case _ => 1
  }

  function PacketWork(r: UdpReader): nat {
    match r
    case UAdmitted(_, _) => 22
    case UInserted(_, _) => 13
    case USend(_, _) => 4
    case _ => 0
  }

  function CleanerWork(k: Cleaner): nat {
    match k
    case CIdle => 0
    case CHold => 1
    case CClosed(_) => 3
    case CReleased(_) => 2
  }

  /** A session may still be swept; the one being swept has been charged. */
  function SessionWork(s: Server): int {
    8 * (|s.sessions| - if s.cleaner.CClosed? || s.cleaner.CReleased? then 1 else 0)
  }

  function LoopWork(r: ClientReader): nat {
    match r
    case LIdle => 0
    case LDial(_, _) => 7
    case LDialFailed(_) => 6
    case LInserted(_, _) => 3
    case LCounted(_, _) => 2
    case LClose(_) => 1
    case LData(_, _) => 2
    case LWrite(_, _) => 1
  }

  function AcceptWorks(m: map<Id, AcceptPc>): map<Id, nat> { map id | id in m :: AcceptWork(m[id]) }

  function PipeWorks(m: map<Id, PipePc>): map<Id, nat> { map id | id in m :: PipeWork(m[id]) }

  function LocalWorks(m: map<Id, LocalPipe>): map<Id, nat> { map id | id in m :: LocalWork(m[id].pc) }

  ghost function Work(w: World): int {
    11 * w.srv.admitted + Total(AcceptWorks(w.srv.accepting)) + Total(PipeWorks(w.srv.pipes))
    + ReaderWork(w.srv.reader) + PacketWork(w.srv.udpReader) + CleanerWork(w.srv.cleaner) + SessionWork(w.srv)
    + LoopWork(w.cli.reader) + Total(LocalWorks(w.cli.pipes))
    + QueueWork(w.down.queue) + QueueWork(w.up.queue)
  }

  lemma WorkIsCounted(w: World)
    requires Ids(w)
    ensures Work(w) >= 0
  {
    if w.srv.cleaner.CClosed? || w.srv.cleaner.CReleased? { assert |w.srv.sessions| > 0; }
  }

  lemma AcceptMoves(m: map<Id, AcceptPc>, id: Id, pc: AcceptPc)
    ensures Total(AcceptWorks(m[id := pc])) ==
            Total(AcceptWorks(m)) + AcceptWork(pc) - if id in m then AcceptWork(m[id]) else 0
  {
    assert AcceptWorks(m[id := pc]) == AcceptWorks(m)[id := AcceptWork(pc)];
    TotalUpdate(AcceptWorks(m), id, AcceptWork(pc));
  }

  lemma PipeMoves(m: map<Id, PipePc>, id: Id, pc: PipePc)
    ensures Total(PipeWorks(m[id := pc])) ==
            Total(PipeWorks(m)) + PipeWork(pc) - if id in m then PipeWork(m[id]) else 0
  {
    assert PipeWorks(m[id := pc]) == PipeWorks(m)[id := PipeWork(pc)];
    TotalUpdate(PipeWorks(m), id, PipeWork(pc));
  }

  lemma LocalMoves(m: map<Id, LocalPipe>, id: Id, p: LocalPipe)
    ensures Total(LocalWorks(m[id := p])) ==
            Total(LocalWorks(m)) + LocalWork(p.pc) - if id in m then LocalWork(m[id].pc) else 0
  {
    assert LocalWorks(m[id := p]) == LocalWorks(m)[id := LocalWork(p.pc)];
    TotalUpdate(LocalWorks(m), id, LocalWork(p.pc));
  }

  lemma {:induction false} QueueSnoc(q: seq<Frame>, f: Frame)
    ensures QueueWork(q + [f]) == QueueWork(q) + Weight(f)
  {
    if q == [] {
      assert [f][1..] == [];
    } else {
      assert (q + [f])[1..] == q[1..] + [f];
      QueueSnoc(q[1..], f);
    }
  }

  /** What a step adds to a stream's work, and what a read takes from it. */
  function Sends(f: Option<(Frame, bool)>): nat { if f.Some? && f.value.1 then Weight(f.value.0) else 0 }

  lemma StreamWork(s: Stream, f: Option<(Frame, bool)>, read: bool)
    requires (f.Some? && f.value.1 ==> !s.broken) && !(f.Some? && read)
    ensures QueueWork(Advance(s, f, read).queue)
            == QueueWork(s.queue) + Sends(f) - if read && s.queue != [] then Weight(s.queue[0]) else 0
  {
    if f.Some? && f.value.1 { QueueSnoc(s.queue, f.value.0); }
  }

  /** The work in the two streams. */
  ghost function InFlight(w: World): nat { QueueWork(w.down.queue) + QueueWork(w.up.queue) }

  lemma StreamsWork(c: Config, w: World, st: Step, w': World)
    requires Moves(c, w, st, w')
    ensures InFlight(w') == InFlight(w) + Sends(DownFrame(c, w, st)) + Sends(UpFrame(c, w, st))
            - (if st.ClientReceive? && w.down.queue != [] then Weight(w.down.queue[0]) else 0)
            - (if st.ServerReceive? && w.up.queue != [] then Weight(w.up.queue[0]) else 0)
  {
    hide Weight, Sends, QueueWork;
    StreamWork(w.down, DownFrame(c, w, st), st.ClientReceive?);
    StreamWork(w.up, UpFrame(c, w, st), st.ServerReceive?);
  }

  // ---------------------------------------------------------------- each goroutine uses up its work

  /** The server's work apart from the streams, and the client's. */
  ghost function ServerWork(s: Server): int {
    11 * s.admitted + Total(AcceptWorks(s.accepting)) + Total(PipeWorks(s.pipes))
    + ReaderWork(s.reader) + PacketWork(s.udpReader) + CleanerWork(s.cleaner) + SessionWork(s)
  }

  ghost function ClientWork(l: Client): int { LoopWork(l.reader) + Total(LocalWorks(l.pipes)) }

  lemma WorkIs(w: World)
    ensures Work(w) == ServerWork(w.srv) + ClientWork(w.cli) + InFlight(w)
  {}

  /** A step of a pipe changes its own position, the table and the limiter. */
  lemma PipeChanges(c: Config, w: World, st: Step, w': World)
    requires PipeNext(c, w, st, w')
    ensures st.id in w.srv.pipes && st.id in w'.srv.pipes
    ensures w'.srv == w.srv.(conns := w'.srv.conns, current := w'.srv.current,
                             pipes := w.srv.pipes[st.id := w'.srv.pipes[st.id]])
  {
    hide Send, Shut, Fed, Pack, ConnAt;
  }

  lemma ServerWorkMoves(s: Server, s': Server, id: Id, pc: PipePc)
    requires s' == s.(conns := s'.conns, current := s'.current, pipes := s.pipes[id := pc]) && id in s.pipes
    ensures ServerWork(s') == ServerWork(s) + PipeWork(pc) - PipeWork(s.pipes[id])
  {
    hide Total, AcceptWorks, PipeWorks, PipeWork, AcceptWork, ReaderWork, PacketWork, CleanerWork;
    PipeMoves(s.pipes, id, pc);
  }

  lemma PipeUsesUp(c: Config, w: World, st: Step, w': World)
    requires PipeNext(c, w, st, w') && !Enters(st)
    ensures ServerWork(w'.srv) + Sends(DownFrame(c, w, st)) < ServerWork(w.srv)
    ensures UpFrame(c, w, st).None?
  {
    assert PipeStep(st);
    hide PipeNext, ServerWork;
    PipeChanges(c, w, st, w');
    PipeSteps(c, w, st, w');
    ServerWorkMoves(w.srv, w'.srv, st.id, w'.srv.pipes[st.id]);
  }

  /** A step of an accept goroutine changes its own position; announcing starts the pipe. */
  lemma AcceptChanges(c: Config, w: World, st: Step, w': World)
    requires AcceptNext(c, w, st, w') && !st.Admit? && !st.Number? && !st.Announce?
    ensures st.id in w.srv.accepting && st.id in w'.srv.accepting
    ensures w'.srv == w.srv.(conns := w'.srv.conns, current := w'.srv.current,
                             accepting := w.srv.accepting[st.id := w'.srv.accepting[st.id]])
    ensures AcceptWork(w'.srv.accepting[st.id]) < AcceptWork(w.srv.accepting[st.id])
  {
    hide Shut;
  }

  lemma AcceptWorkMoves(s: Server, s': Server, id: Id, pc: AcceptPc, admitted: nat, pipes: map<Id, PipePc>)
    requires s' == s.(conns := s'.conns, current := s'.current, accepting := s.accepting[id := pc],
                      admitted := admitted, pipes := pipes)
    requires Total(PipeWorks(pipes)) == Total(PipeWorks(s.pipes))
    ensures ServerWork(s') == ServerWork(s) + AcceptWork(pc) + 11 * (admitted - s.admitted)
            - if id in s.accepting then AcceptWork(s.accepting[id]) else 0
  {
    hide Total, AcceptWorks, PipeWorks, PipeWork, AcceptWork, ReaderWork, PacketWork, CleanerWork;
    AcceptMoves(s.accepting, id, pc);
  }

  lemma NumberUsesUp(w: World, w': World)
    requires DoNumber(w, w') && w.next + 1 !in w.srv.accepting
    ensures ServerWork(w'.srv) < ServerWork(w.srv)
  {
    hide ServerWork, Total;
    AcceptWorkMoves(w.srv, w'.srv, w.next + 1, Numbered, w'.srv.admitted, w.srv.pipes);
  }

  lemma AnnounceUsesUp(w: World, id: Id, ok: bool, w': World)
    requires DoAnnounce(w, id, ok, w') && id !in w.srv.pipes
    ensures ServerWork(w'.srv) + (if ok then 8 else 0) < ServerWork(w.srv)
  {
    hide ServerWork, Total, Send, PipeWorks;
    PipeMoves(w.srv.pipes, id, Piping);
    AcceptWorkMoves(w.srv, w'.srv, id, w'.srv.accepting[id], w.srv.admitted, w'.srv.pipes);
  }

  lemma AcceptUsesUp(c: Config, w: World, st: Step, w': World)
    requires AcceptNext(c, w, st, w') && !Enters(st)
    requires w.next + 1 !in w.srv.accepting && (st.Announce? ==> st.id !in w.srv.pipes)
    ensures ServerWork(w'.srv) + Sends(DownFrame(c, w, st)) < ServerWork(w.srv)
    ensures UpFrame(c, w, st).None?
  {
    hide ServerWork, AcceptWork, DoNumber, DoAnnounce, DoInsert, DoDropFailed, DoReleaseFailed, DoAdmit;
    if st.Number? {
      NumberUsesUp(w, w');
    } else if st.Announce? {
      AnnounceUsesUp(w, st.id, st.ok, w');
    } else {
      AcceptChanges(c, w, st, w');
      AcceptWorkMoves(w.srv, w'.srv, st.id, w'.srv.accepting[st.id], w.srv.admitted, w.srv.pipes);
    }
  }

  lemma LocalChanges(c: Config, w: World, st: Step, w': World)
    requires LocalNext(c, w, st, w')
    ensures st.id in w.cli.pipes && st.id in w'.cli.pipes && w'.cli.reader == w.cli.reader
    ensures w'.cli.pipes == w.cli.pipes[st.id := w'.cli.pipes[st.id]]
  {
    hide Send, Shut, Fed, Pack, ConnAt;
  }

  lemma LocalFrames(c: Config, w: World, st: Step)
    requires LocalStep(st)
    ensures Sends(UpFrame(c, w, st)) <= if st.LocalWrite? && st.ok then 3 else if st.LocalClose? && st.ok then 5 else 0
    ensures DownFrame(c, w, st).None?
  {}

  lemma LocalUsesUp(c: Config, w: World, st: Step, w': World)
    requires LocalNext(c, w, st, w') && !Enters(st)
    ensures ClientWork(w'.cli) + Sends(UpFrame(c, w, st)) < ClientWork(w.cli)
    ensures DownFrame(c, w, st).None?
  {
    assert LocalStep(st);
    hide LocalNext, Total, LocalWorks, Sends, DownFrame, UpFrame, LoopWork;
    LocalChanges(c, w, st, w');
    LocalSteps(c, w, st, w');
    LocalFrames(c, w, st);
    LocalMoves(w.cli.pipes, st.id, w'.cli.pipes[st.id]);
  }

  /** A step of the read loop changes its position, and may remove a session. */
  lemma ReaderChanges(c: Config, w: World, st: Step, w': World)
    requires ReaderNext(c, w, st, w')
    ensures w'.srv == w.srv.(conns := w'.srv.conns, current := w'.srv.current, sessions := w'.srv.sessions,
                             reader := w'.srv.reader)
    ensures |w'.srv.sessions| <= |w.srv.sessions|
  {
    hide Send, Shut, Writes, Unpack, WithoutId, SessionIds, UdpFree;
    if st.ServerCloseUdp? {
      hide DoServerCloseUdp;
      CloseUdpChanges(w, w');
    } else {
      hide DoServerCloseUdp;
    }
  }

  lemma CloseUdpChanges(w: World, w': World)
    requires DoServerCloseUdp(w, w')
    ensures w'.srv == w.srv.(sessions := w'.srv.sessions, reader := w'.srv.reader)
    ensures |w'.srv.sessions| <= |w.srv.sessions|
  {
    hide WithoutId, SessionIds, UdpFree;
    FewerSessions(w.srv.sessions, w.srv.reader.id);
  }

  lemma ItsReader(c: Config, w: World, st: Step, w': World)
    requires Next(c, w, st, w') && ReaderStep(st)
    ensures ReaderNext(c, w, st, w')
  {
    hide ReaderNext;
  }

  lemma ReaderFrame(c: Config, w: World, st: Step)
    requires ReaderStep(st)
    ensures Sends(DownFrame(c, w, st)) == if st.ServerPong? && st.ok then 1 else 0
    ensures UpFrame(c, w, st).None? && !st.ClientReceive?
  {
    hide Pack;
  }

  lemma FewerSessions(m: map<Key, Id>, id: Id)
    ensures |WithoutId(m, id)| <= |m|
  {
    assert WithoutId(m, id).Keys <= m.Keys;
    Fewer(WithoutId(m, id).Keys, m.Keys);
    assert |m| == |m.Keys| && |WithoutId(m, id)| == |WithoutId(m, id).Keys|;
  }

  lemma {:induction false} Fewer(a: set<Key>, b: set<Key>)
    requires a <= b
    ensures |a| <= |b|
  {
    if a != {} {
      var k :| k in a;
      Fewer(a - {k}, b - {k});
    }
  }

  lemma ReaderWorkMoves(s: Server, s': Server)
    requires s' == s.(conns := s'.conns, current := s'.current, sessions := s'.sessions, reader := s'.reader)
    requires |s'.sessions| <= |s.sessions|
    ensures ServerWork(s') <= ServerWork(s) + ReaderWork(s'.reader) - ReaderWork(s.reader)
  {
    hide Total, AcceptWorks, PipeWorks, ReaderWork, PacketWork, CleanerWork;
  }

  /** Taking up a frame is less work than the frame was. */
  lemma TakenUp(z: Lz4, f: Frame, r: ServerReader)
    requires ServerTakesUp(z, f, r)
    ensures ReaderWork(r) < Weight(f)
  {
    hide Plain;
  }

  lemma ReceiveUsesUp(c: Config, w: World, w': World)
    requires Inv(c, w) && Next(c, w, ServerReceive, w')
    ensures w.up.queue != [] && ServerWork(w'.srv) < ServerWork(w.srv) + Weight(w.up.queue[0])
  {
    hide Inv, ReaderNext, ServerWork, ReaderWork, Weight, ServerTakesUp;
    ReceiveTakes(c, w, w');
    TakenUp(c.lz4, w.up.queue[0], w'.srv.reader);
    ReaderChanges(c, w, ServerReceive, w');
    ReaderWorkMoves(w.srv, w'.srv);
  }

  lemma ReaderUsesUp(c: Config, w: World, st: Step, w': World)
    requires Next(c, w, st, w') && ReaderStep(st) && !st.ServerReceive?
    ensures ServerWork(w'.srv) + Sends(DownFrame(c, w, st)) < ServerWork(w.srv)
    ensures UpFrame(c, w, st).None? && !st.ClientReceive?
  {
    hide Next, ReaderNext, ServerWork, Sends, DownFrame, UpFrame, OnServer, Holds;
    ItsReader(c, w, st, w');
    ReaderChanges(c, w, st, w');
    ReaderSteps(c, w, st, w');
    ReaderFrame(c, w, st);
    ReaderWorkMoves(w.srv, w'.srv);
  }

  /** A step under udpMu changes the session table, the limiter and its own position. */
  lemma SessionWorkMoves(s: Server, s': Server)
    requires s' == s.(current := s'.current, sessions := s'.sessions, udpIds := s'.udpIds, udpReader := s'.udpReader,
                      cleaner := s'.cleaner)
    ensures ServerWork(s') - ServerWork(s) ==
            PacketWork(s'.udpReader) - PacketWork(s.udpReader) + CleanerWork(s'.cleaner) - CleanerWork(s.cleaner)
            + SessionWork(s') - SessionWork(s)
  {
    hide Total, AcceptWorks, PipeWorks, ReaderWork, PacketWork, CleanerWork, SessionWork;
  }

  lemma PacketChanges(c: Config, w: World, st: Step, w': World)
    requires Ids(w) && PacketNext(c, w, st, w')
    ensures w'.srv == w.srv.(current := w'.srv.current, sessions := w'.srv.sessions, udpIds := w'.srv.udpIds,
                             udpReader := w'.srv.udpReader)
    ensures st.UdpInsert? ==> |w'.srv.sessions| == |w.srv.sessions| + 1
    ensures !st.UdpInsert? ==> w'.srv.sessions == w.srv.sessions
  {
    hide Send, Pack, UdpFree;
    if st.UdpInsert? { OneMoreSession(w.srv.sessions, w.srv.udpReader.key, w.next + 1); }
  }

  lemma OneMoreSession(m: map<Key, Id>, key: Key, id: Id)
    requires key !in m
    ensures |m[key := id]| == |m| + 1
  {
    assert m[key := id].Keys == m.Keys + {key};
  }

  /** A step of the packet loop; a new session brings its own work. */
  lemma PacketUsesUp(c: Config, w: World, st: Step, w': World)
    requires Ids(w) && PacketNext(c, w, st, w') && Next(c, w, st, w') && !Enters(st)
    ensures ServerWork(w'.srv) + Sends(DownFrame(c, w, st)) < ServerWork(w.srv)
    ensures UpFrame(c, w, st).None?
  {
    assert PacketStep(st);
    hide PacketNext, Next, Ids, ServerWork;
    PacketChanges(c, w, st, w');
    PacketSteps(c, w, st, w');
    SessionWorkMoves(w.srv, w'.srv);
  }

  /** Where a step of the cleanup leaves it. */
  lemma CleanSteps(c: Config, w: World, st: Step, w': World)
    requires CleanNext(c, w, st, w') && !Enters(st)
    ensures w'.srv == w.srv.(current := w'.srv.current, sessions := w'.srv.sessions, cleaner := w'.srv.cleaner)
    ensures var k, k' := w.srv.cleaner, w'.srv.cleaner;
            match st
            case CleanClose(key, _) =>
              k == CHold && k' == CClosed(key) && key in w.srv.sessions && w'.srv.sessions == w.srv.sessions
            case CleanRelease => k.CClosed? && k' == CReleased(k.key) && w'.srv.sessions == w.srv.sessions
            case CleanDelete => k.CReleased? && k' == CHold && w'.srv.sessions == w.srv.sessions - {k.key}
            case _ => k == CHold && k' == CIdle && w'.srv.sessions == w.srv.sessions
  {
    hide Send, UdpFree;
  }

  /** A step of the cleanup; a session pays for its close frame. */
  lemma CleanUsesUp(c: Config, w: World, st: Step, w': World)
    requires Ids(w) && CleanNext(c, w, st, w') && !Enters(st)
    ensures ServerWork(w'.srv) + Sends(DownFrame(c, w, st)) < ServerWork(w.srv)
    ensures UpFrame(c, w, st).None?
  {
    assert CleanStep(st);
    SweptIsListed(w);
    hide CleanNext, Ids, ServerWork;
    CleanSteps(c, w, st, w');
    if st.CleanDelete? { OneSessionLess(w.srv.sessions, w.srv.cleaner.key); }
    SessionWorkMoves(w.srv, w'.srv);
  }

  lemma SweptIsListed(w: World)
    requires Ids(w)
    ensures w.srv.cleaner.CClosed? || w.srv.cleaner.CReleased? ==> w.srv.cleaner.key in w.srv.sessions
  {}

  lemma OneSessionLess(m: map<Key, Id>, key: Key)
    requires key in m
    ensures |m - {key}| == |m| - 1
  {
    assert (m - {key}).Keys == m.Keys - {key};
  }

  /** A step of the client's read loop. */
  lemma LoopUsesUp(c: Config, w: World, st: Step, w': World)
    requires Inv(c, w) && LoopNext(c, w, st, w') && Next(c, w, st, w') && !Enters(st)
    requires w.cli.reader.LCounted? ==> w.cli.reader.id !in w.cli.pipes
    ensures ClientWork(w'.cli) + Sends(UpFrame(c, w, st))
            < ClientWork(w.cli) + if st.ClientReceive? && w.down.queue != [] then Weight(w.down.queue[0]) else 0
    ensures DownFrame(c, w, st).None? && !st.ServerReceive?
  {
    assert LoopStep(st);
    if st.ClientReceive? { ReceiveIsTaken(c, w, w'); }
    hide Inv, Next, Plain, Total, LocalWorks;
    LoopPipes(c, w, st, w');
    hide LoopNext;
    LoopSteps(c, w, st, w');
    if w'.cli.pipes != w.cli.pipes { LocalMoves(w.cli.pipes, w.cli.reader.id, LocalPipe(w.cli.reader.udp, LPiping)); }
  }

  lemma LoopPipes(c: Config, w: World, st: Step, w': World)
    requires LoopNext(c, w, st, w')
    ensures w'.cli.pipes != w.cli.pipes ==>
              st.ClientReady? && w.cli.reader.LCounted?
              && w'.cli.pipes == w.cli.pipes[w.cli.reader.id := LocalPipe(w.cli.reader.udp, LPiping)]
  {
    hide Send, Shut, Writes, Unpack;
  }

  // ---------------------------------------------------------------- so it ends

  lemma StartsOnce(c: Config, w: World, id: Id)
    requires Channels(c, w) && Real(w)
    ensures At(w.srv.accepting, id, Inserted) ==> id !in w.srv.pipes
    ensures w.cli.reader.LCounted? && w.cli.reader.id == id ==> id !in w.cli.pipes
  {
    assert Local(ViewOf(c.lz4, w, id));
  }

  lemma IdIsFree(w: World)
    requires Ids(w)
    ensures w.next + 1 !in w.srv.accepting
  {}

  lemma ServerUsesUp(c: Config, w: World, st: Step, w': World)
    requires Inv(c, w) && Real(w) && Next(c, w, st, w') && !Enters(st) && !ClientStep(st)
    ensures ServerWork(w'.srv) + Sends(DownFrame(c, w, st))
            < ServerWork(w.srv) + if st.ServerReceive? && w.up.queue != [] then Weight(w.up.queue[0]) else 0
    ensures UpFrame(c, w, st).None? && !st.ClientReceive?
  {
    hide Real, ServerWork, Weight, Streams, Chunks, Channels, Ids;
    hide AcceptNext, PipeNext, ReaderNext, PacketNext, CleanNext, ClientNext;
    if AcceptStep(st) {
      IdIsFree(w);
      if st.Announce? { AnnounceIsFirst(c, w, st.id, st.ok, w'); }
      AcceptUsesUp(c, w, st, w');
    } else if PipeStep(st) {
      PipeUsesUp(c, w, st, w');
    } else if st.ServerReceive? {
      ReceiveUsesUp(c, w, w');
    } else if ReaderStep(st) {
      ReaderUsesUp(c, w, st, w');
    } else if PacketStep(st) {
      PacketUsesUp(c, w, st, w');
    } else {
      CleanUsesUp(c, w, st, w');
    }
  }

  lemma AnnounceIsFirst(c: Config, w: World, id: Id, ok: bool, w': World)
    requires Channels(c, w) && Real(w) && Next(c, w, Step.Announce(id, ok), w')
    ensures id !in w.srv.pipes
  {
    hide Channels, Real, Next;
    AnnounceStarts(c, w, id, ok, w');
    StartsOnce(c, w, id);
  }

  lemma ClientUsesUp(c: Config, w: World, st: Step, w': World)
    requires Inv(c, w) && Real(w) && Next(c, w, st, w') && !Enters(st) && ClientStep(st)
    ensures ClientWork(w'.cli) + Sends(UpFrame(c, w, st))
            < ClientWork(w.cli) + if st.ClientReceive? && w.down.queue != [] then Weight(w.down.queue[0]) else 0
    ensures DownFrame(c, w, st).None? && !st.ServerReceive?
  {
    hide Real, ClientWork, Weight, Streams, Chunks, Channels, Ids, LoopNext, LocalNext, ServerNext;
    if LocalStep(st) {
      LocalUsesUp(c, w, st, w');
    } else {
      if w.cli.reader.LCounted? { StartsOnce(c, w, w.cli.reader.id); }
      LoopUsesUp(c, w, st, w');
    }
  }

  /** A step by which nothing new enters uses up some of the work at hand. */
  lemma StepUsesUp(c: Config, w: World, st: Step, w': World)
    requires Inv(c, w) && Real(w) && Next(c, w, st, w') && !Enters(st)
    ensures Work(w') < Work(w)
  {
    hide Inv, Real, Next, ServerWork, ClientWork, InFlight, Work, Weight, DownFrame, UpFrame;
    StepMoves(c, w, st, w');
    StreamsWork(c, w, st, w');
    WorkIs(w);
    WorkIs(w');
    if ClientStep(st) { ClientUsesUp(c, w, st, w'); } else { ServerUsesUp(c, w, st, w'); }
  }

  /** Only so many steps can be taken in a row without anything new entering. */
  lemma {:induction false} ComesToRest(c: Config, ws: seq<World>, sts: seq<Step>, i: nat, j: nat)
    requires Sound(c) && Run(c, ws, sts) && i <= j < |ws|
    requires forall k :: i <= k < j ==> !Enters(sts[k])
    ensures 0 <= Work(ws[j]) <= Work(ws[i]) - (j - i)
  {
    hide Run, Work, Good, Next, Real, Enters, Ids, Streams, Chunks, Channels, Sound;
    RunLength(c, ws, sts);
    if i < j {
      ComesToRest(c, ws, sts, i, j - 1);
      RunStep(c, ws, sts, j - 1);
      RunParts(c, ws, sts, j - 1);
      RunReal(c, ws, sts, j - 1);
      StepUsesUp(c, ws[j - 1], sts[j - 1], ws[j]);
    }
    RunParts(c, ws, sts, j);
    WorkIsCounted(ws[j]);
  }

  // ---------------------------------------------------------------- at rest

  lemma StaysWhole(c: Config, w: World, st: Step, w': World)
    requires Next(c, w, st, w') && Succeeds(st) && !w.down.broken && !w.up.broken
    ensures !w'.down.broken && !w'.up.broken
  {
    hide Next, Pack, Send;
    StepMoves(c, w, st, w');
    Whole(w.down, DownFrame(c, w, st), st.ClientReceive?);
    Whole(w.up, UpFrame(c, w, st), st.ServerReceive?);
  }

  lemma Whole(s: Stream, f: Option<(Frame, bool)>, read: bool)
    requires !s.broken && (f.Some? ==> f.value.1)
    ensures !Advance(s, f, read).broken
  {}

  lemma NoIdDrawn(c: Config, w: World, st: Step, w': World)
    requires Next(c, w, st, w') && AcceptStep(st) && !st.Number?
    ensures w'.next == w.next && w'.srv.udpReader == w.srv.udpReader
  {
    hide ClientNext, PipeNext, ReaderNext, PacketNext, CleanNext, Send, Shut;
  }

  lemma CounterStays(c: Config, w: World, st: Step, w': World)
    requires Next(c, w, st, w') && !st.OtherDraw? && !st.Number? && !PacketStep(st)
    ensures w'.next == w.next && w'.srv.udpReader == w.srv.udpReader
  {
    hide AcceptNext, PipeNext, ReaderNext, PacketNext, CleanNext, ClientNext, Moves;
    if ClientStep(st) {
      StepMoves(c, w, st, w');
    } else if AcceptStep(st) {
      NoIdDrawn(c, w, st, w');
    } else if PipeStep(st) {
      PipeLeaves(c, w, st, w');
    } else if ReaderStep(st) {
      ReaderLeaves(c, w, st, w');
    } else {
      CleanLeaves(c, w, st, w');
    }
  }

  /** The packet that still needs an id keeps it reserved. */
  lemma IdIsKept(c: Config, w: World, st: Step, w': World)
    requires Next(c, w, st, w') && !Enters(st) && !st.Number?
    requires w.srv.udpReader.UAdmitted? ==> CanDraw(w)
    ensures w'.srv.udpReader.UAdmitted? ==> CanDraw(w')
  {
    hide Next;
    if PacketStep(st) { PacketSteps(c, w, st, w'); } else { CounterStays(c, w, st, w'); }
  }

  lemma RunGrows(c: Config, ws: seq<World>, sts: seq<Step>, st: Step, w': World)
    requires Run(c, ws, sts) && Next(c, ws[|sts|], st, w')
    ensures Run(c, ws + [w'], sts + [st])
  {
    hide Next, Init;
    var ws', sts' := ws + [w'], sts + [st];
    forall i | 0 <= i < |sts'| ensures Next(c, ws'[i], sts'[i], ws'[i + 1]) {
      if i < |sts| { assert Next(c, ws[i], sts[i], ws[i + 1]); }
    }
  }

  /** `more` continues `sts` by steps with which nothing new enters. */
  ghost predicate CarriesOn(sts: seq<Step>, more: seq<Step>) {
    |sts| <= |more| && more[..|sts|] == sts && forall k :: |sts| <= k < |more| ==> !Enters(more[k])
  }

  /** Every run whose streams work can be carried on, with nothing new entering, until the link is at rest; and
      however it is carried on, it cannot go on for longer than there is work at hand. */
  lemma {:induction false} RestIsReached(c: Config, ws: seq<World>, sts: seq<Step>)
    returns (ws': seq<World>, sts': seq<Step>)
    requires Sound(c) && Run(c, ws, sts)
    requires var w := ws[|sts|];
             !w.down.broken && !w.up.broken && (w.srv.udpReader.UAdmitted? ==> CanDraw(w))
    ensures Run(c, ws', sts') && ws <= ws' && CarriesOn(sts, sts') && Quiet(ws'[|sts'|])
    ensures forall more, ws2 :: Run(c, ws2, more) && ws <= ws2 && CarriesOn(sts, more)
              ==> |more| - |sts| <= Work(ws[|sts|])
    decreases Work(ws[|sts|])
  {
    hide Run, Work, Next, Real, Enters, Sound, Quiet, Succeeds;
    RunLength(c, ws, sts);
    var n := |sts|;
    var w := ws[n];
    forall more, ws2 | Run(c, ws2, more) && ws <= ws2 && CarriesOn(sts, more)
      ensures |more| - |sts| <= Work(w)
    {
      RunLength(c, ws2, more);
      ComesToRest(c, ws2, more, n, |more|);
    }
    if Quiet(w) {
      ws', sts' := ws, sts;
    } else {
      var st, w' := NoDeadlock(c, ws, sts, n);
      RunGrows(c, ws, sts, st, w');
      StaysWhole(c, w, st, w');
      IdIsKept(c, w, st, w');
      ComesToRest(c, ws + [w'], sts + [st], n, n + 1);
      ws', sts' := RestIsReached(c, ws + [w'], sts + [st]);
    }
  }
}
