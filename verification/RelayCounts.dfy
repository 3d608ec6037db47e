/** The counters: the client's connection limiter on the server, and the client's own bookkeeping. */
module RelayCounts {
  import opened RelayTypes
  import opened RelayMachine
  import opened RelayInvariant
  import opened RelaySteps

  // ---------------------------------------------------------------- limiter

  function AcceptsAt(m: map<Id, AcceptPc>, pc: AcceptPc): set<Id> { set id | id in m && m[id] == pc }

  function PipesAt(m: map<Id, PipePc>, pc: PipePc): set<Id> { set id | id in m && m[id] == pc }

  /** Connections the limiter admitted that are not yet in a table. */
  function NotInserted(s: Server): nat {
    s.admitted + |AcceptsAt(s.accepting, Numbered)| + if s.udpReader.UAdmitted? then 1 else 0
  }

  /** Connections out of their table whose place has not yet been given back. */
  function NotReleased(s: Server): nat {
    |AcceptsAt(s.accepting, Dropped)| + |PipesAt(s.pipes, Releasing)|
    + if s.reader.SRelease? || s.reader.SUdpRelease? then 1 else 0
  }

  /** The cleanup gives a session's place back before it deletes the session. */
  function Early(s: Server): nat { if s.cleaner.CReleased? then 1 else 0 }

  predicate Conserved(c: Config, s: Server) {
    c.maxConns > 0 ==>
      && s.current == |s.conns| + |s.sessions| + NotInserted(s) + NotReleased(s) - Early(s)
      && s.current <= c.maxConns
  }

  /** One element more, one element less. */
  lemma Moves<T>(s: set<T>, x: T)
    ensures |s + {x}| == |s| + if x in s then 0 else 1
    ensures |s - {x}| == |s| - if x in s then 1 else 0
  {
    if x in s { assert s + {x} == s; } else { assert s - {x} == s; }
  }

  lemma AcceptsMoved(m: map<Id, AcceptPc>, id: Id, to: AcceptPc, pc: AcceptPc)
    ensures AcceptsAt(m[id := to], pc) == if to == pc then AcceptsAt(m, pc) + {id} else AcceptsAt(m, pc) - {id}
  {}

  lemma PipesMoved(m: map<Id, PipePc>, id: Id, to: PipePc)
    ensures PipesAt(m[id := to], Releasing)
            == if to == Releasing then PipesAt(m, Releasing) + {id} else PipesAt(m, Releasing) - {id}
  {}

  lemma SessionCount(m: map<Key, Id>, key: Key, id: Id)
    ensures key in m ==> |m - {key}| == |m| - 1
    ensures key !in m ==> |m[key := id]| == |m| + 1
  {
    assert (m - {key}).Keys == m.Keys - {key};
  }

  /** The facts about single channels that conservation rests on. */
  lemma ChannelFacts(c: Config, w: World, id: Id)
    requires Channels(c, w) && Ids(w)
    ensures At(w.srv.accepting, id, Numbered) ==> id !in w.srv.conns
    ensures At(w.srv.accepting, id, SendFailed) ==> id in w.srv.conns
    ensures At(w.srv.accepting, id, Inserted) ==> PipeOf(w.srv, id) == Unstarted
  {
    assert Local(ViewOf(c.lz4, w, id));
  }

  lemma AcceptMovedBoth(m: map<Id, AcceptPc>, id: Id, to: AcceptPc)
    ensures |AcceptsAt(m[id := to], Numbered)| ==
            |AcceptsAt(m, Numbered)| + (if to == Numbered then 1 else 0) - (if At(m, id, Numbered) then 1 else 0)
    ensures |AcceptsAt(m[id := to], Dropped)| ==
            |AcceptsAt(m, Dropped)| + (if to == Dropped then 1 else 0) - (if At(m, id, Dropped) then 1 else 0)
  {
    AcceptsMoved(m, id, to, Numbered);
    AcceptsMoved(m, id, to, Dropped);
    Moves(AcceptsAt(m, Numbered), id);
    Moves(AcceptsAt(m, Dropped), id);
  }

  lemma PipeMoved(m: map<Id, PipePc>, id: Id, to: PipePc)
    ensures |PipesAt(m[id := to], Releasing)| ==
            |PipesAt(m, Releasing)| + (if to == Releasing then 1 else 0) - (if PipeAt(m, id, Releasing) then 1 else 0)
  {
    PipesMoved(m, id, to);
    Moves(PipesAt(m, Releasing), id);
  }

  lemma NumberConserves(c: Config, w: World, w': World)
    requires Ids(w) && Conserved(c, w.srv) && DoNumber(w, w')
    ensures Conserved(c, w'.srv)
  {
    AcceptMovedBoth(w.srv.accepting, w'.next, Numbered);
  }

  lemma InsertConserves(c: Config, w: World, id: Id, w': World)
    requires Conserved(c, w.srv) && DoInsert(w, id, w') && id !in w.srv.conns
    ensures Conserved(c, w'.srv)
  {
    AcceptMovedBoth(w.srv.accepting, id, Inserted);
  }

  lemma AnnounceConserves(c: Config, w: World, id: Id, ok: bool, w': World)
    requires Conserved(c, w.srv) && DoAnnounce(w, id, ok, w') && PipeOf(w.srv, id) == Unstarted
    ensures Conserved(c, w'.srv)
  {
    AcceptMovedBoth(w.srv.accepting, id, if ok then Announced else SendFailed);
    PipeMoved(w.srv.pipes, id, Piping);
  }

  lemma DropConserves(c: Config, w: World, id: Id, w': World)
    requires Conserved(c, w.srv) && DoDropFailed(w, id, w') && id in w.srv.conns
    ensures Conserved(c, w'.srv)
  {
    AcceptMovedBoth(w.srv.accepting, id, Dropped);
  }

  lemma ReturnConserves(c: Config, w: World, id: Id, w': World)
    requires Conserved(c, w.srv) && DoReleaseFailed(c, w, id, w')
    ensures Conserved(c, w'.srv)
  {
    AcceptMovedBoth(w.srv.accepting, id, Returned);
  }

  /** For an accept goroutine; that its channel is still listed when new_conn fails comes from `Channels`. */
  lemma AcceptConserves(c: Config, w: World, st: Step, w': World)
    requires Ids(w) && Channels(c, w) && Conserved(c, w.srv) && AcceptNext(c, w, st, w')
    ensures Conserved(c, w'.srv)
  {
    hide Local, Channels, Ids;
    match st
    case Admit =>
    case Number => hide Conserved; NumberConserves(c, w, w');
    case Insert(id) => hide Conserved; ChannelFacts(c, w, id); InsertConserves(c, w, id, w');
    case Announce(id, ok) => hide Conserved; ChannelFacts(c, w, id); AnnounceConserves(c, w, id, ok, w');
    case DropFailed(id) => hide Conserved; ChannelFacts(c, w, id); DropConserves(c, w, id, w');
    case ReleaseFailed(id) => hide Conserved; ReturnConserves(c, w, id, w');
  }

  lemma PipeRemoveConserves(c: Config, w: World, id: Id, w': World)
    requires Conserved(c, w.srv) && DoPipeRemove(w, id, w')
    ensures Conserved(c, w'.srv)
  {
    hide AcceptsAt, PipesAt, Shut;
    PipeMoved(w.srv.pipes, id, w'.srv.pipes[id]);
    Moves(w.srv.conns, id);
  }

  lemma PipeReleaseConserves(c: Config, w: World, id: Id, w': World)
    requires Conserved(c, w.srv) && DoPipeRelease(c, w, id, w')
    ensures Conserved(c, w'.srv)
  {
    hide AcceptsAt, PipesAt;
    PipeMoved(w.srv.pipes, id, Exited);
  }

  /** Any other step of a pipe leaves the limiter and the tables alone. */
  lemma PipeWorksConserves(c: Config, w: World, st: Step, w': World)
    requires Conserved(c, w.srv) && PipeNext(c, w, st, w') && !st.PipeRemove? && !st.PipeRelease?
    ensures Conserved(c, w'.srv)
  {
    hide AcceptsAt, PipesAt, Send, Shut, Fed, Pack, ConnAt;
    PipeMoved(w.srv.pipes, st.id, w'.srv.pipes[st.id]);
  }

  lemma PipeConserves(c: Config, w: World, st: Step, w': World)
    requires Conserved(c, w.srv) && PipeNext(c, w, st, w')
    ensures Conserved(c, w'.srv)
  {
    hide Conserved, DoPipeRemove, DoPipeRelease, DoPipeRead, DoPipeWrite, DoPipeEof, DoPipeClose;
    match st
    case PipeRemove(id) => PipeRemoveConserves(c, w, id, w');
    case PipeRelease(id) => PipeReleaseConserves(c, w, id, w');
    case _ => PipeWorksConserves(c, w, st, w');
  }

  lemma CloseTcpConserves(c: Config, w: World, w': World)
    requires Conserved(c, w.srv) && DoServerCloseTcp(w, w')
    ensures Conserved(c, w'.srv)
  {}

  lemma CloseUdpConserves(c: Config, w: World, w': World)
    requires Ids(w) && Conserved(c, w.srv) && DoServerCloseUdp(w, w')
    ensures Conserved(c, w'.srv)
  {
    if w.srv.reader.id in SessionIds(w.srv.sessions) { WithoutCount(w.srv.sessions, w.srv.reader.id); }
    hide Ids, WithoutId, SessionIds;
  }

  /** An id has one session, so the search by id removes exactly one. */
  lemma WithoutCount(m: map<Key, Id>, id: Id)
    requires Injective(m) && id in SessionIds(m)
    ensures |WithoutId(m, id)| == |m| - 1
  {
    var key :| key in m && m[key] == id;
    SessionDropped(m, key);
    SessionCount(m, key, 0);
  }

  lemma ReaderConserves(c: Config, w: World, st: Step, w': World)
    requires Ids(w) && Conserved(c, w.srv) && ReaderNext(c, w, st, w')
    ensures Conserved(c, w'.srv)
  {
    hide Ids, AcceptsAt, PipesAt, SessionIds, WithoutId, Unpack, Writes, Send;
    if st.ServerCloseUdp? {
      hide Conserved;
      CloseUdpConserves(c, w, w');
    } else if st.ServerCloseTcp? {
      hide Conserved;
      CloseTcpConserves(c, w, w');
    }
  }

  lemma UdpConserves(c: Config, w: World, st: Step, w': World)
    requires Ids(w) && Conserved(c, w.srv) && PacketNext(c, w, st, w')
    ensures Conserved(c, w'.srv)
  {
    hide AcceptsAt, PipesAt, SessionIds, Send, Pack;
    if st.UdpInsert? { SessionCount(w.srv.sessions, w.srv.udpReader.key, w'.next); }
  }

  lemma DeleteConserves(c: Config, w: World, w': World)
    requires Ids(w) && Conserved(c, w.srv) && DoCleanDelete(w, w')
    ensures Conserved(c, w'.srv)
  {
    SessionCount(w.srv.sessions, w.srv.cleaner.key, 0);
  }

  lemma CleanConserves(c: Config, w: World, st: Step, w': World)
    requires Ids(w) && Conserved(c, w.srv) && CleanNext(c, w, st, w')
    ensures Conserved(c, w'.srv)
  {
    hide Ids;
    if st.CleanDelete? {
      hide Conserved;
      DeleteConserves(c, w, w');
    }
  }

  // ---------------------------------------------------------------- client bookkeeping

  /** AddActiveChan(1) comes after the lock is released. */
  function CountOwed(l: Client): nat { if l.reader.LInserted? then 1 else 0 }

  predicate Booked(l: Client) {
    && l.channels !! l.udpChannels
    && l.infos == l.channels + l.udpChannels
    && l.active + CountOwed(l) == |l.channels| + |l.udpChannels|
  }

  lemma ClientFacts(c: Config, w: World, id: Id)
    requires Channels(c, w)
    ensures w.cli.reader.LDial? && w.cli.reader.id == id ==> id !in w.cli.channels && id !in w.cli.udpChannels
    ensures id in w.cli.pipes && w.cli.pipes[id].pc == LRemove
            ==> if w.cli.pipes[id].udp then id !in w.cli.channels else id !in w.cli.udpChannels
  {
    assert Local(ViewOf(c.lz4, w, id));
  }

  lemma DialBooks(w: World, ok: bool, w': World)
    requires Booked(w.cli) && DoClientDial(w, ok, w')
    requires w.cli.reader.id !in w.cli.channels && w.cli.reader.id !in w.cli.udpChannels
    ensures Booked(w'.cli)
  {
    var l, id := w.cli, w.cli.reader.id;
    if l.reader.udp {
      Moves(l.udpChannels, id);
      JoinsUnion(l.udpChannels, l.channels, id);
    } else {
      Moves(l.channels, id);
      JoinsUnion(l.channels, l.udpChannels, id);
    }
  }

  lemma JoinsUnion(a: set<Id>, b: set<Id>, id: Id)
    requires a !! b && id !in a && id !in b
    ensures a + {id} !! b && (a + {id}) + b == (a + b) + {id} && b + (a + {id}) == (b + a) + {id}
  {}

  lemma CloseBooks(w: World, w': World)
    requires Booked(w.cli) && DoClientClose(w, w')
    ensures Booked(w'.cli)
  {
    Moves(w.cli.channels, w.cli.reader.id);
    Moves(w.cli.udpChannels, w.cli.reader.id);
  }

  lemma ReadLoopBooks(c: Config, w: World, st: Step, w': World)
    requires Channels(c, w) && Booked(w.cli) && LoopNext(c, w, st, w')
    ensures Booked(w'.cli)
  {
    hide Local, Channels;
    if st.ClientDial? {
      hide Booked;
      ClientFacts(c, w, w.cli.reader.id);
      DialBooks(w, st.ok, w');
    } else if st.ClientClose? {
      hide Booked;
      CloseBooks(w, w');
    } else if !st.ClientCount? {
      hide Booked;
      UntouchedBooks(w, w');
    }
  }

  lemma UntouchedBooks(w: World, w': World)
    requires Booked(w.cli)
    requires w'.cli.channels == w.cli.channels && w'.cli.udpChannels == w.cli.udpChannels && w'.cli.infos == w.cli.infos
    requires w'.cli.active == w.cli.active && CountOwed(w'.cli) == CountOwed(w.cli)
    ensures Booked(w'.cli)
  {}

  lemma DropsFromUnion(a: set<Id>, b: set<Id>, id: Id)
    requires a !! b && id !in b
    ensures a - {id} !! b && (a - {id}) + b == (a + b) - {id} && b + (a - {id}) == (b + a) - {id}
  {}

  lemma RemoveBooks(w: World, id: Id, w': World)
    requires Booked(w.cli) && DoLocalRemove(w, id, w')
    requires if w.cli.pipes[id].udp then id !in w.cli.channels else id !in w.cli.udpChannels
    ensures Booked(w'.cli)
  {
    var l := w.cli;
    if l.pipes[id].udp {
      Moves(l.udpChannels, id);
      DropsFromUnion(l.udpChannels, l.channels, id);
    } else {
      Moves(l.channels, id);
      DropsFromUnion(l.channels, l.udpChannels, id);
    }
  }

  lemma PipeBooks(c: Config, w: World, st: Step, w': World)
    requires Channels(c, w) && Booked(w.cli) && LocalNext(c, w, st, w')
    ensures Booked(w'.cli)
  {
    hide Local, Channels, Booked;
    if st.LocalRemove? {
      ClientFacts(c, w, st.id);
      RemoveBooks(w, st.id, w');
    } else {
      UntouchedBooks(w, w');
    }
  }
}
