/** What the relay link guarantees in every reachable state, for any interleaving of any number of channels. */
module RelayTheorems {
  import opened RelayTypes
  import opened RelayMachine
  import opened RelayInvariant
  import opened RelayCounts
  import opened RelayRuns
  import opened RelaySteps
  import opened RelayStreams

  // ---------------------------------------------------------------- table agreement

  predicate OnServer(w: World, id: Id) { id in w.srv.conns || id in SessionIds(w.srv.sessions) }

  predicate OnClient(w: World, id: Id) { id in w.cli.channels || id in w.cli.udpChannels }

  predicate LocalParting(w: World, id: Id) { id in w.cli.pipes && w.cli.pipes[id].pc == LRemove }

  /** The client lists a channel the server no longer lists only while a close is on its way to it. */
  lemma ClientListed(c: Config, ws: seq<World>, sts: seq<Step>, i: nat, id: Id)
    requires Sound(c) && Run(c, ws, sts) && i < |ws|
    requires OnClient(ws[i], id)
    ensures var w := ws[i];
            || OnServer(w, id)
            || Close(id) in w.down.queue || w.cli.reader == LClose(id)
            || LocalParting(w, id)
            || w.down.broken
  {
    RunGood(c, ws, sts, i);
    assert Local(ViewOf(c.lz4, ws[i], id));
  }

  predicate Unannounced(w: World, id: Id) {
    At(w.srv.accepting, id, Inserted) || At(w.srv.accepting, id, SendFailed) || Unsaid(w.srv, id)
  }

  predicate BeingDialled(w: World, id: Id) {
    (w.cli.reader.LDial? || w.cli.reader.LDialFailed?) && w.cli.reader.id == id
  }

  predicate BeingClosed(w: World, id: Id) {
    || PipeAt(w.srv.pipes, id, Cleanup) || Cleaned(w.srv, id)
    || ((w.srv.reader.SClose? || w.srv.reader.SUdp?) && w.srv.reader.id == id)
  }

  /** The server lists a channel the client does not list only before the client could, or while it is being closed. */
  lemma ServerListed(c: Config, ws: seq<World>, sts: seq<Step>, i: nat, id: Id)
    requires Sound(c) && Run(c, ws, sts) && i < |ws|
    requires OnServer(ws[i], id)
    ensures var w := ws[i];
            || OnClient(w, id)
            || Unannounced(w, id) || HasNew(w.down.queue, id) || BeingDialled(w, id)
            || Close(id) in w.up.queue || BeingClosed(w, id)
            || w.up.broken || w.down.broken
  {
    RunGood(c, ws, sts, i);
    var w := ws[i];
    assert Local(ViewOf(c.lz4, w, id));
    assert id in w.srv.conns ==> id in w.srv.accepting;
    assert id in SessionIds(w.srv.sessions) ==> id in w.srv.udpIds;
  }

  /** Nothing is in flight and every goroutine of the link waits for input. */
  ghost predicate Quiet(w: World) {
    && w.down.queue == [] && w.up.queue == [] && !w.down.broken && !w.up.broken
    && w.srv.reader == SIdle && w.cli.reader == LIdle
    && !w.srv.udpReader.UInserted? && w.srv.cleaner == CIdle
    && (forall id :: id in w.srv.accepting ==> w.srv.accepting[id] == Announced)
    && (forall id :: id in w.srv.pipes ==> w.srv.pipes[id] == Piping || w.srv.pipes[id] == Exited)
    && (forall id :: id in w.cli.pipes ==> w.cli.pipes[id].pc == LPiping || w.cli.pipes[id].pc == LExited)
  }

  /** At rest the two endpoints list the same channels, table by table. */
  lemma QuietTablesAgree(c: Config, ws: seq<World>, sts: seq<Step>, i: nat)
    requires Sound(c) && Run(c, ws, sts) && i < |ws| && Quiet(ws[i])
    ensures ws[i].srv.conns == ws[i].cli.channels
    ensures SessionIds(ws[i].srv.sessions) == ws[i].cli.udpChannels
  {
    var w := ws[i];
    RunGood(c, ws, sts, i);
    forall id
      ensures id in w.srv.conns <==> id in w.cli.channels
      ensures id in SessionIds(w.srv.sessions) <==> id in w.cli.udpChannels
    {
      TableKinds(c, w, id);
      if OnClient(w, id) { ClientListed(c, ws, sts, i, id); }
      if OnServer(w, id) { ServerListed(c, ws, sts, i, id); }
    }
  }

  lemma TableKinds(c: Config, w: World, id: Id)
    requires Inv(c, w)
    ensures id in w.srv.conns ==> id !in w.srv.udpIds
    ensures id in SessionIds(w.srv.sessions) ==> id in w.srv.udpIds
    ensures id in w.cli.channels ==> id !in w.srv.udpIds
    ensures id in w.cli.udpChannels ==> id in w.srv.udpIds
  {
    assert Local(ViewOf(c.lz4, w, id));
  }

  // ---------------------------------------------------------------- streams

  /** Per channel, what has been written at the far end is a prefix of what was read at the near end. */
  lemma StreamsAreSafe(c: Config, ws: seq<World>, sts: seq<Step>, i: nat, id: Id)
    requires Sound(c) && Run(c, ws, sts) && i < |ws| && id !in ws[i].srv.udpIds
    ensures ConnAt(ws[i].loc, id).output <= ConnAt(ws[i].ext, id).input
    ensures ConnAt(ws[i].ext, id).output <= ConnAt(ws[i].loc, id).input
  {
    RunGood(c, ws, sts, i);
    assert Local(ViewOf(c.lz4, ws[i], id));
  }

  /** At rest nothing is missing on a channel both sides still serve. */
  lemma StreamsAreComplete(c: Config, ws: seq<World>, sts: seq<Step>, i: nat, id: Id)
    requires Sound(c) && Run(c, ws, sts) && i < |ws| && Quiet(ws[i])
    requires id in ws[i].srv.conns && PipeAt(ws[i].srv.pipes, id, Piping) && LocalAt(ws[i].cli.pipes, id, LPiping)
    requires ConnAt(ws[i].loc, id).Usable() && ConnAt(ws[i].ext, id).Usable()
    ensures ConnAt(ws[i].loc, id).output == ConnAt(ws[i].ext, id).input
    ensures ConnAt(ws[i].ext, id).output == ConnAt(ws[i].loc, id).input
  {
    var w := ws[i];
    RunGood(c, ws, sts, i);
    QuietTablesAgree(c, ws, sts, i);
    TableKinds(c, w, id);
    var v := ViewOf(c.lz4, w, id);
    assert Local(v);
    assert InFlightDown(v) == v.loc.output;
    assert InFlightUp(v) == v.ext.output;
  }

  /** No frame either read loop takes up is dropped for being packed or too long. */
  lemma FramesAreReadable(c: Config, ws: seq<World>, sts: seq<Step>, i: nat, f: Frame)
    requires Sound(c) && Run(c, ws, sts) && i < |ws| && (f.Data? || f.Packed?)
    ensures f in ws[i].down.log ==> |f.payload| <= MAX_FRAME && Unpack(c.clientUnpacks, c.lz4, f).Some?
    ensures f in ws[i].up.log ==> |f.payload| <= MAX_FRAME && Unpack(c.serverUnpacks, c.lz4, f).Some?
  {
    RunGood(c, ws, sts, i);
  }

  // ---------------------------------------------------------------- close discipline

  /** On the whole server-to-client stream: one announcement per channel, before everything else about it,
      at most one close, and on a TCP channel nothing after it. */
  lemma DownDiscipline(c: Config, ws: seq<World>, sts: seq<Step>, i: nat)
    requires Sound(c) && Run(c, ws, sts) && i < |ws|
    ensures DownOrder(ws[i].down.log, ws[i].srv.udpIds)
  {
    RunGood(c, ws, sts, i);
  }

  /** On the whole client-to-server stream: a close frame is the last frame of its channel, so there is one at most. */
  lemma UpDiscipline(c: Config, ws: seq<World>, sts: seq<Step>, i: nat)
    requires Sound(c) && Run(c, ws, sts) && i < |ws|
    ensures UpOrder(ws[i].up.log)
  {
    RunGood(c, ws, sts, i);
  }

  /** A step gives no session an id but the next one of the counter. */
  lemma SessionsAreFresh(c: Config, w: World, st: Step, w': World)
    requires Ids(w) && Next(c, w, st, w')
    ensures w.next <= w'.next && SessionIds(w'.srv.sessions) <= SessionIds(w.srv.sessions) + {w.next + 1}
  {
    hide AcceptNext, PipeNext, ReaderNext, PacketNext, CleanNext, ClientNext, SessionIds;
    if st.OtherDraw? {
    } else if ClientStep(st) {
      StepMoves(c, w, st, w');
    } else if AcceptStep(st) {
      AcceptLeaves(c, w, st, w');
    } else if PipeStep(st) {
      PipeLeaves(c, w, st, w');
    } else if ReaderStep(st) {
      ReaderSessions(c, w, st, w');
    } else if PacketStep(st) {
      PacketSessions(c, w, st, w');
    } else {
      CleanSessions(c, w, st, w');
    }
  }

  lemma ReaderSessions(c: Config, w: World, st: Step, w': World)
    requires ReaderNext(c, w, st, w')
    ensures w'.next == w.next && SessionIds(w'.srv.sessions) <= SessionIds(w.srv.sessions)
  {
    hide Send, Shut, Writes, Unpack, UdpFree;
  }

  lemma PacketSessions(c: Config, w: World, st: Step, w': World)
    requires Ids(w) && PacketNext(c, w, st, w')
    ensures w.next <= w'.next && SessionIds(w'.srv.sessions) <= SessionIds(w.srv.sessions) + {w.next + 1}
  {
    hide Send, Pack, UdpFree;
    if st.UdpInsert? { SessionAdded(w.srv.sessions, w.srv.udpReader.key, w.next + 1); }
  }

  lemma CleanSessions(c: Config, w: World, st: Step, w': World)
    requires CleanNext(c, w, st, w')
    ensures w'.next == w.next && SessionIds(w'.srv.sessions) <= SessionIds(w.srv.sessions)
  {
    hide Send, UdpFree;
  }

  /** An id that was drawn and is no session's stays no session's. */
  lemma {:induction false} StaysUnlisted(c: Config, ws: seq<World>, sts: seq<Step>, i: nat, j: nat, id: Id)
    requires Sound(c) && Run(c, ws, sts) && i <= j < |ws|
    requires id <= ws[i].next && id !in SessionIds(ws[i].srv.sessions)
    ensures id <= ws[j].next && id !in SessionIds(ws[j].srv.sessions)
  {
    hide *;
    if i < j {
      StaysUnlisted(c, ws, sts, i, j - 1, id);
      RunLength(c, ws, sts);
      RunParts(c, ws, sts, j - 1);
      RunStep(c, ws, sts, j - 1);
      SessionsAreFresh(c, ws[j - 1], sts[j - 1], ws[j]);
    }
  }

  lemma {:induction false} ReaderWaits(c: Config, ws: seq<World>, sts: seq<Step>, i: nat, j: nat)
    requires Run(c, ws, sts) && i <= j < |ws| && forall k :: i <= k < j ==> !ReaderStep(sts[k])
    ensures ws[j].srv.reader == ws[i].srv.reader
  {
    if i < j {
      ReaderWaits(c, ws, sts, i, j - 1);
      assert Next(c, ws[j - 1], sts[j - 1], ws[j - 1 + 1]);
      hide Next, Run;
      StepMoves(c, ws[j - 1], sts[j - 1], ws[j]);
    }
  }

  /** Whoever is asked to close something was asked about an id that was drawn. */
  lemma ClosedIdsAreDrawn(c: Config, w: World)
    requires Inv(c, w) && w.srv.reader.SClose?
    ensures w.srv.reader.id <= w.next
  {
    assert Local(ViewOf(c.lz4, w, w.srv.reader.id));
  }

  /** A close frame for a channel the server does not list moves its read loop on and changes nothing else, in the
      block under chanMu and in the later one under udpMu, whatever the other goroutines do between the two. */
  lemma UnknownCloseIsIgnored(c: Config, ws: seq<World>, sts: seq<Step>, i: nat, j: nat)
    requires Sound(c) && Run(c, ws, sts) && i < j < |sts|
    requires sts[i] == ServerCloseTcp && sts[j] == ServerCloseUdp && forall k :: i < k < j ==> !ReaderStep(sts[k])
    requires ws[i].srv.reader.SClose? && !OnServer(ws[i], ws[i].srv.reader.id)
    ensures ws[i + 1] == ws[i].(srv := ws[i].srv.(reader := SUdp(ws[i].srv.reader.id)))
    ensures ws[j + 1] == ws[j].(srv := ws[j].srv.(reader := SIdle))
  {
    var id := ws[i].srv.reader.id;
    assert Next(c, ws[i], sts[i], ws[i + 1]) && Next(c, ws[j], sts[j], ws[j + 1]);
    assert DoServerCloseTcp(ws[i], ws[i + 1]) && DoServerCloseUdp(ws[j], ws[j + 1]);
    hide Next;
    RunGood(c, ws, sts, i);
    ClosedIdsAreDrawn(c, ws[i]);
    hide Good, Inv, SessionIds;
    ReaderWaits(c, ws, sts, i + 1, j);
    StaysUnlisted(c, ws, sts, i, j, id);
  }

  /** Nor does it change anything on the client, which handles it in one block. */
  lemma UnknownLocalCloseIsIgnored(c: Config, ws: seq<World>, sts: seq<Step>, i: nat)
    requires Sound(c) && Run(c, ws, sts) && i < |sts| && sts[i] == ClientClose
    requires ws[i].cli.reader.LClose? && !OnClient(ws[i], ws[i].cli.reader.id)
    ensures ws[i + 1] == ws[i].(cli := ws[i].cli.(reader := LIdle))
  {
    hide ServerNext, LocalNext, Sound;
    assert Next(c, ws[i], sts[i], ws[i + 1]) && DoClientClose(ws[i], ws[i + 1]);
    hide Next, Run;
    ClientBooks(c, ws, sts, i);
    var l, id := ws[i].cli, ws[i].cli.reader.id;
    assert l.channels - {id} == l.channels && l.udpChannels - {id} == l.udpChannels && l.infos - {id} == l.infos;
  }

  /** The channels a stream closes, and how many close frames it holds. */
  function ClosedIn(log: seq<Frame>): set<Id> {
    if log == [] then {}
    else ClosedIn(log[..|log| - 1]) + if log[|log| - 1].Close? then {log[|log| - 1].id} else {}
  }

  function Closes(log: seq<Frame>): nat {
    if log == [] then 0 else Closes(log[..|log| - 1]) + if log[|log| - 1].Close? then 1 else 0
  }

  lemma {:induction false} ClosedWhere(log: seq<Frame>, id: Id) returns (i: nat)
    requires id in ClosedIn(log)
    ensures i < |log| && log[i] == Close(id)
  {
    var n := |log| - 1;
    if id in ClosedIn(log[..n]) { i := ClosedWhere(log[..n], id); } else { i := n; }
  }

  lemma {:induction false} ClosesOnce(log: seq<Frame>)
    requires forall i, j :: 0 <= i < j < |log| && log[i].Close? && log[j].Close? ==> log[i].id != log[j].id
    ensures Closes(log) == |ClosedIn(log)|
  {
    if log != [] {
      var n := |log| - 1;
      ClosesOnce(log[..n]);
      forall id | id in ClosedIn(log[..n]) && log[n].Close? ensures id != log[n].id {
        var i := ClosedWhere(log[..n], id);
        assert log[i].id != log[n].id;
      }
    }
  }

  lemma {:induction false} AtMost(s: set<Id>, n: nat)
    requires forall id :: id in s ==> 0 < id <= n
    ensures |s| <= n
  {
    if n == 0 {
      assert s == {};
    } else {
      AtMost(s - {n}, n - 1);
    }
  }

  /** Close traffic is finite: each side writes at most one close frame per id ever drawn. */
  lemma CloseTrafficEnds(c: Config, ws: seq<World>, sts: seq<Step>, i: nat)
    requires Sound(c) && Run(c, ws, sts) && i < |ws|
    ensures Closes(ws[i].down.log) <= ws[i].next && Closes(ws[i].up.log) <= ws[i].next
  {
    var w := ws[i];
    RunGood(c, ws, sts, i);
    assert forall k, l :: 0 <= k < l < |w.up.log| && w.up.log[k].Close? && w.up.log[l].Close? ==>
             w.up.log[k].id != w.up.log[l].id;
    ClosesOnce(w.down.log);
    ClosesOnce(w.up.log);
    forall id | id in ClosedIn(w.down.log) || id in ClosedIn(w.up.log) ensures 0 < id <= w.next {
      if id in ClosedIn(w.down.log) {
        var k := ClosedWhere(w.down.log, id);
      } else {
        var k := ClosedWhere(w.up.log, id);
      }
      assert Close(id) in w.down.log || Close(id) in w.up.log;
      assert Local(ViewOf(c.lz4, w, id));
    }
    AtMost(ClosedIn(w.down.log), w.next);
    AtMost(ClosedIn(w.up.log), w.next);
  }

  // ---------------------------------------------------------------- limiter, identity, leaks

  /** The limiter counts exactly the open channels, those on their way in, and those on their way out. */
  lemma LimiterConserved(c: Config, ws: seq<World>, sts: seq<Step>, i: nat)
    requires Sound(c) && Run(c, ws, sts) && i < |ws| && c.maxConns > 0
    ensures var s := ws[i].srv;
            s.current == |s.conns| + |s.sessions| + NotInserted(s) + NotReleased(s) - Early(s)
    ensures 0 <= ws[i].srv.current <= c.maxConns
    ensures |ws[i].srv.conns| + |ws[i].srv.sessions| <= c.maxConns + Early(ws[i].srv)
  {
    RunGood(c, ws, sts, i);
    var s := ws[i].srv;
    if Early(s) == 1 { assert s.sessions.Keys != {}; }
  }

  /** The tables that hold a channel id never overlap, and an id names one session. */
  lemma IdsAreUnambiguous(c: Config, ws: seq<World>, sts: seq<Step>, i: nat, k: Key, l: Key)
    requires Sound(c) && Run(c, ws, sts) && i < |ws|
    ensures ws[i].srv.conns !! SessionIds(ws[i].srv.sessions)
    ensures ws[i].cli.channels !! ws[i].cli.udpChannels
    ensures var m := ws[i].srv.sessions; k in m && l in m && m[k] == m[l] ==> k == l
  {
    RunGood(c, ws, sts, i);
    forall id | id in ws[i].srv.conns && id in SessionIds(ws[i].srv.sessions) ensures false {
      TableKinds(c, ws[i], id);
    }
  }

  /** Bookkeeping of the client: one info per listed channel, and a counter behind by what is still owed. */
  lemma ClientBooks(c: Config, ws: seq<World>, sts: seq<Step>, i: nat)
    requires Sound(c) && Run(c, ws, sts) && i < |ws|
    ensures ws[i].cli.infos == ws[i].cli.channels + ws[i].cli.udpChannels
    ensures ws[i].cli.active + CountOwed(ws[i].cli) == |ws[i].cli.channels| + |ws[i].cli.udpChannels|
  {
    RunGood(c, ws, sts, i);
  }

  /** An open connection is listed, or some goroutine is about to list it or to close it. */
  lemma NothingLeaks(c: Config, ws: seq<World>, sts: seq<Step>, i: nat, id: Id)
    requires Sound(c) && Run(c, ws, sts) && i < |ws|
    ensures ConnAt(ws[i].ext, id).open ==>
              id in ws[i].srv.conns || At(ws[i].srv.accepting, id, Numbered) || At(ws[i].srv.accepting, id, Dropped)
    ensures ConnAt(ws[i].loc, id).open ==> OnClient(ws[i], id) || LocalAt(ws[i].cli.pipes, id, LShut)
  {
    RunGood(c, ws, sts, i);
    assert Local(ViewOf(c.lz4, ws[i], id));
    TableKinds(c, ws[i], id);
  }
}
