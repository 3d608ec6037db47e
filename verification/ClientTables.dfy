/**
 * The client's tables: `channels`, `udpChannels`, `connInfos` and the two counters, as its read loop and its pipes
 * change them. As in ServerTables each method is one block, shown to take exactly the machine's step.
 */
module ClientTables {
  import opened RelayTypes
  import opened RelayMachine
  import opened RelayInvariant
  import opened RelayCounts
  import opened RelayRuns
  import opened RelayStreams
  import opened NetConns

  datatype ConnInfo = ConnInfo(localPort: int, proto: string, remoteAddr: string, bytesIn: nat, bytesOut: nat)

  /** A table holds what the machine says. */
  predicate ConnsAgree(table: map<Id, NetConn>, dialled: map<Id, NetConn>, keys: set<Id>) {
    table.Keys == keys && forall id :: id in table ==> id in dialled && table[id] == dialled[id]
  }

  /** A connection is closed when the machine says so. */
  ghost predicate DialledAgree(dialled: map<Id, NetConn>, loc: map<Id, Conn>)
    reads dialled.Values
  {
    && (forall id :: id in dialled ==> dialled[id].open == ConnAt(loc, id).open)
    && (forall i, j :: i in dialled && j in dialled && i != j ==> dialled[i] != dialled[j])
  }

  /** The steps that change a table, a counter or a local connection's being open; each has its method: Register,
      Count, CloseChannel, RemoveChannel and CloseLocal. */
  predicate TableStep(st: Step) {
    st == ClientDial(true) || st.ClientCount? || st.ClientClose? || st.LocalRemove? || st.LocalShut?
  }

  ghost predicate SameTables(w: World, w': World) {
    && w'.cli.channels == w.cli.channels && w'.cli.udpChannels == w.cli.udpChannels && w'.cli.infos == w.cli.infos
    && w'.cli.total == w.cli.total && w'.cli.active == w.cli.active
    && forall id :: ConnAt(w'.loc, id).open == ConnAt(w.loc, id).open
  }

  lemma LoopsLeave(c: Config, w: World, st: Step, w': World)
    requires LoopNext(c, w, st, w') && !TableStep(st)
    ensures SameTables(w, w')
  {
    hide Send, Unpack;
  }

  lemma LocalsLeave(c: Config, w: World, st: Step, w': World)
    requires LocalNext(c, w, st, w') && !TableStep(st)
    ensures SameTables(w, w')
  {
    hide Send, Pack, Moved;
  }

  lemma OtherStepsLeave(c: Config, w: World, st: Step, w': World)
    requires Next(c, w, st, w') && !TableStep(st)
    ensures SameTables(w, w')
  {
    hide ServerNext, LoopNext, LocalNext;
    if st.OtherDraw? || !ClientStep(st) {
      StepMoves(c, w, st, w');
    } else {
      hide SameTables;
      if LocalStep(st) { LocalsLeave(c, w, st, w'); } else { LoopsLeave(c, w, st, w'); }
    }
  }

  lemma InDialled(table: map<Id, NetConn>, dialled: map<Id, NetConn>, keys: set<Id>)
    requires ConnsAgree(table, dialled, keys)
    ensures keys <= dialled.Keys
  {}

  /** A pipe starts only for a channel in one of the tables. */
  lemma PipesAreListed(c: Config, w: World, st: Step, w': World)
    requires Good(c, w) && Next(c, w, st, w')
    ensures w'.cli.pipes.Keys <= w.cli.pipes.Keys + w.cli.channels + w.cli.udpChannels
  {
    hide Good, ServerNext, LoopNext, LocalNext;
    if st.OtherDraw? || !ClientStep(st) {
      StepMoves(c, w, st, w');
    } else if LocalStep(st) {
      LocalPipesStay(c, w, st, w');
    } else {
      LoopPipesListed(c, w, st, w');
    }
  }

  lemma LocalPipesStay(c: Config, w: World, st: Step, w': World)
    requires LocalNext(c, w, st, w')
    ensures w'.cli.pipes.Keys <= w.cli.pipes.Keys
  {
    hide Send, Shut, Fed, Pack, ConnAt;
  }

  lemma LoopPipesListed(c: Config, w: World, st: Step, w': World)
    requires Good(c, w) && LoopNext(c, w, st, w')
    ensures w'.cli.pipes.Keys <= w.cli.pipes.Keys + w.cli.channels + w.cli.udpChannels
  {
    hide Good, Send, Shut, Writes, Unpack;
    if w.cli.reader.LCounted? { CountedIsListed(c, w); }
  }

  lemma CountedIsListed(c: Config, w: World)
    requires Good(c, w) && w.cli.reader.LCounted?
    ensures w.cli.reader.id in w.cli.channels + w.cli.udpChannels
  {
    assert Local(ViewOf(c.lz4, w, w.cli.reader.id));
  }

  lemma StillAgrees(dialled: map<Id, NetConn>, w: World, w': World)
    requires SameTables(w, w') && DialledAgree(dialled, w.loc)
    ensures DialledAgree(dialled, w'.loc)
    ensures w'.cli.channels == w.cli.channels && w'.cli.udpChannels == w.cli.udpChannels && w'.cli.infos == w.cli.infos
    ensures w'.cli.total == w.cli.total && w'.cli.active == w.cli.active
  {}

  lemma AddedTo(table: map<Id, NetConn>, dialled: map<Id, NetConn>, keys: set<Id>, id: Id, conn: NetConn)
    requires ConnsAgree(table, dialled, keys) && id !in keys
    ensures ConnsAgree(table, dialled[id := conn], keys)
    ensures ConnsAgree(table[id := conn], dialled[id := conn], keys + {id})
  {}

  lemma AddedConn(dialled: map<Id, NetConn>, loc: map<Id, Conn>, id: Id, conn: NetConn)
    requires DialledAgree(dialled, loc) && conn.open && conn !in dialled.Values
    ensures DialledAgree(dialled[id := conn], loc[id := FRESH])
  {
    assert forall i :: i in dialled ==> dialled[i] in dialled.Values;
  }

  class Client {
    const cfg: Config
    var channels: map<Id, NetConn>
    var udpChannels: map<Id, NetConn>
    var connInfos: map<Id, ConnInfo>
    var totalConns: nat
    var activeChans: int
    ghost var dialled: map<Id, NetConn> // every local connection ever made
    ghost var w: World

    ghost predicate Valid()
      reads this, dialled.Values
    {
      && ConnsAgree(channels, dialled, w.cli.channels) && ConnsAgree(udpChannels, dialled, w.cli.udpChannels)
      && DialledAgree(dialled, w.loc) && w.cli.pipes.Keys <= dialled.Keys
      && connInfos.Keys == w.cli.infos && totalConns == w.cli.total && activeChans == w.cli.active
      && Sound(cfg) && Good(cfg, w)
    }

    constructor (cfg: Config)
      requires Sound(cfg)
      ensures Valid() && this.cfg == cfg && w == Init()
    {
      this.cfg := cfg;
      channels, udpChannels, connInfos := map[], map[], map[];
      totalConns, activeChans := 0, 0;
      dialled, w := map[], Init();
      new;
      hide Good, Sound;
      InitGood(cfg);
    }

    /** The bookkeeping agrees with the tables whatever read loop and pipes did in between. */
    lemma BooksBalance()
      requires Valid()
      ensures channels.Keys !! udpChannels.Keys && connInfos.Keys == channels.Keys + udpChannels.Keys
      ensures activeChans + CountOwed(w.cli) == |channels| + |udpChannels|
    {
      assert |channels| == |channels.Keys| && |udpChannels| == |udpChannels.Keys|;
    }

    /** Any step of any goroutine that is none of the methods below: it leaves the object agreeing with the link. */
    ghost method Elsewhere(st: Step, w': World)
      requires Valid() && Next(cfg, w, st, w') && !TableStep(st)
      modifies this`w
      ensures Valid() && w == w'
    {
      hide Good, Sound, Next, ConnsAgree, DialledAgree, TableStep;
      GoodKept(cfg, w, st, w');
      OtherStepsLeave(cfg, w, st, w');
      StillAgrees(dialled, w, w');
      PipesAreListed(cfg, w, st, w');
      InDialled(channels, dialled, w.cli.channels);
      InDialled(udpChannels, dialled, w.cli.udpChannels);
      w := w';
    }

    /** handleNewConn and handleNewUDPConn, after the dial succeeded. */
    method Register(id: Id, udp: bool, localConn: NetConn, info: ConnInfo)
      requires Valid() && w.cli.reader == LDial(id, udp)
      requires localConn.open && localConn !in dialled.Values
      modifies this`channels, this`udpChannels, this`connInfos, this`totalConns, this`dialled, this`w
      ensures Valid() && DoClientDial(old(w), true, w)
      ensures channels == if udp then old(channels) else old(channels)[id := localConn]
      ensures udpChannels == if udp then old(udpChannels)[id := localConn] else old(udpChannels)
      ensures connInfos == old(connInfos)[id := info] && totalConns == old(totalConns) + 1
    {
      hide Good, Sound, ConnsAgree, DialledAgree;
      NotListed(cfg, w, id);
      List(id, udp, localConn);
      connInfos := connInfos[id := info];
      totalConns := totalConns + 1;
      Registers(cfg, w, id, udp);
      w := WithLocal(w, id, udp);
    }

    method List(id: Id, udp: bool, localConn: NetConn)
      requires ConnsAgree(channels, dialled, w.cli.channels) && ConnsAgree(udpChannels, dialled, w.cli.udpChannels)
      requires DialledAgree(dialled, w.loc) && id !in w.cli.channels && id !in w.cli.udpChannels
      requires localConn.open && localConn !in dialled.Values
      modifies this`channels, this`udpChannels, this`dialled
      ensures channels == if udp then old(channels) else old(channels)[id := localConn]
      ensures udpChannels == if udp then old(udpChannels)[id := localConn] else old(udpChannels)
      ensures ConnsAgree(channels, dialled, if udp then w.cli.channels else w.cli.channels + {id})
      ensures ConnsAgree(udpChannels, dialled, if udp then w.cli.udpChannels + {id} else w.cli.udpChannels)
      ensures DialledAgree(dialled, w.loc[id := FRESH]) && dialled == old(dialled)[id := localConn]
    {
      AddedTo(channels, dialled, w.cli.channels, id, localConn);
      AddedTo(udpChannels, dialled, w.cli.udpChannels, id, localConn);
      AddedConn(dialled, w.loc, id, localConn);
      hide ConnsAgree, DialledAgree;
      if udp { udpChannels := udpChannels[id := localConn]; } else { channels := channels[id := localConn]; }
      dialled := dialled[id := localConn];
    }

    /** logutil.AddActiveChan(1), after the lock is released. */
    method Count()
      requires Valid() && w.cli.reader.LInserted?
      modifies this`activeChans, this`w
      ensures Valid() && DoClientCount(old(w), w) && activeChans == old(activeChans) + 1
    {
      hide Good, Sound, ConnsAgree, DialledAgree;
      activeChans := activeChans + 1;
      Counts(cfg, w);
      w := Counted(w, w.cli.reader.id, w.cli.reader.udp);
    }

    /** frameClose: one block over all three tables. */
    method CloseChannel(id: Id)
      requires Valid() && w.cli.reader == LClose(id)
      modifies this`channels, this`udpChannels, this`connInfos, this`activeChans, this`w
      modifies if id in channels then {channels[id]} else {}, if id in udpChannels then {udpChannels[id]} else {}
      ensures Valid() && DoClientClose(old(w), w)
      ensures channels == old(channels) - {id} && udpChannels == old(udpChannels) - {id}
      ensures connInfos == old(connInfos) - {id}
      ensures activeChans == old(activeChans) - if id in old(channels) || id in old(udpChannels) then 1 else 0
    {
      hide Good, Sound, ConnsAgree, DialledAgree;
      OneTable(cfg, w);
      InTables(id);
      CloseListed(id);
      if id in connInfos { connInfos := connInfos - {id}; }
      Closes(cfg, w, id);
      w := LocalClosed(w, id);
    }

    lemma InTables(id: Id)
      requires Valid()
      ensures id in channels <==> id in w.cli.channels
      ensures id in udpChannels <==> id in w.cli.udpChannels
      ensures id in channels ==> id in dialled && channels[id] == dialled[id]
      ensures id in udpChannels ==> id in dialled && udpChannels[id] == dialled[id]
    {}

    method CloseListed(id: Id)
      requires ConnsAgree(channels, dialled, w.cli.channels) && ConnsAgree(udpChannels, dialled, w.cli.udpChannels)
      requires DialledAgree(dialled, w.loc) && !(id in channels && id in udpChannels)
      modifies this`channels, this`udpChannels, this`activeChans
      modifies if id in channels then {channels[id]} else {}, if id in udpChannels then {udpChannels[id]} else {}
      ensures channels == old(channels) - {id} && udpChannels == old(udpChannels) - {id}
      ensures ConnsAgree(channels, dialled, w.cli.channels - {id})
      ensures ConnsAgree(udpChannels, dialled, w.cli.udpChannels - {id})
      ensures var hit := id in old(channels) || id in old(udpChannels);
              && DialledAgree(dialled, if hit then Shut(w.loc, id) else w.loc)
              && activeChans == old(activeChans) - if hit then 1 else 0
    {
      if id in channels {
        channels[id].Close();
        channels := channels - {id};
        activeChans := activeChans - 1;
      }
      if id in udpChannels {
        udpChannels[id].Close();
        udpChannels := udpChannels - {id};
        activeChans := activeChans - 1;
      }
    }

    method Unlist(id: Id, udp: bool)
      requires ConnsAgree(channels, dialled, w.cli.channels) && ConnsAgree(udpChannels, dialled, w.cli.udpChannels)
      modifies this`channels, this`udpChannels, this`activeChans
      ensures channels == if udp then old(channels) else old(channels) - {id}
      ensures udpChannels == if udp then old(udpChannels) - {id} else old(udpChannels)
      ensures ConnsAgree(channels, dialled, if udp then w.cli.channels else w.cli.channels - {id})
      ensures ConnsAgree(udpChannels, dialled, if udp then w.cli.udpChannels - {id} else w.cli.udpChannels)
      ensures activeChans == old(activeChans) - if id in (if udp then old(udpChannels) else old(channels)) then 1 else 0
    {
      if udp {
        if id in udpChannels {
          udpChannels := udpChannels - {id};
          activeChans := activeChans - 1;
        }
      } else {
        if id in channels {
          channels := channels - {id};
          activeChans := activeChans - 1;
        }
      }
    }

    /** The block deferred by pipeLocalToRelay (`udp` false) and pipeUDPFromRelay (`udp` true). */
    method RemoveChannel(id: Id, udp: bool)
      requires Valid() && LocalAt(w.cli.pipes, id, LRemove) && w.cli.pipes[id].udp == udp
      modifies this`channels, this`udpChannels, this`connInfos, this`activeChans, this`w
      ensures Valid() && DoLocalRemove(old(w), id, w)
      ensures channels == if udp then old(channels) else old(channels) - {id}
      ensures udpChannels == if udp then old(udpChannels) - {id} else old(udpChannels)
      ensures connInfos == old(connInfos) - {id}
      ensures activeChans == old(activeChans) - if id in old(channels) || id in old(udpChannels) then 1 else 0
    {
      hide Good, Sound, DialledAgree, ConnsAgree, LocalRemoved;
      PipeFacts(cfg, w, id);
      InTables(id);
      Unlist(id, udp);
      if id in connInfos { connInfos := connInfos - {id}; }
      Removes(cfg, w, id);
      w := LocalRemoved(w, id);
    }

    /** localConn.Close() after the deferred block. */
    method CloseLocal(id: Id, localConn: NetConn)
      requires Valid() && LocalAt(w.cli.pipes, id, LShut) && localConn == dialled[id]
      modifies this`w, localConn
      ensures Valid() && DoLocalShut(old(w), id, w) && !localConn.open
    {
      hide Good, Sound;
      localConn.Close();
      Shuts(cfg, w, id);
      w := w.(loc := Shut(w.loc, id), cli := w.cli.(pipes := Moved(w.cli.pipes, id, LExited)));
    }

    /** After a frame was written to the local side, or read from it and relayed. */
    method AddBytes(id: Id, bytesIn: nat, bytesOut: nat)
      requires Valid()
      modifies this`connInfos
      ensures Valid() && connInfos.Keys == old(connInfos.Keys)
      ensures forall k :: k in connInfos && k != id ==> connInfos[k] == old(connInfos)[k]
      ensures id in connInfos ==>
                var info := old(connInfos)[id];
                connInfos[id] == info.(bytesIn := info.bytesIn + bytesIn, bytesOut := info.bytesOut + bytesOut)
    {
      hide Good, Sound, ConnsAgree, DialledAgree;
      if id in connInfos {
        var info := connInfos[id];
        connInfos := connInfos[id := info.(bytesIn := info.bytesIn + bytesIn, bytesOut := info.bytesOut + bytesOut)];
      }
    }
  }

  lemma NotListed(c: Config, w: World, id: Id)
    requires Good(c, w) && w.cli.reader.LDial? && w.cli.reader.id == id
    ensures id !in w.cli.channels && id !in w.cli.udpChannels
  {
    ClientFacts(c, w, id);
  }

  lemma Registers(c: Config, w: World, id: Id, udp: bool)
    requires Sound(c) && Good(c, w) && w.cli.reader == LDial(id, udp)
    ensures Good(c, WithLocal(w, id, udp))
  {
    hide Good, Sound;
    GoodKept(c, w, ClientDial(true), WithLocal(w, id, udp));
  }

  lemma Counts(c: Config, w: World)
    requires Sound(c) && Good(c, w) && w.cli.reader.LInserted?
    ensures Good(c, Counted(w, w.cli.reader.id, w.cli.reader.udp))
  {
    hide Good, Sound;
    GoodKept(c, w, ClientCount, Counted(w, w.cli.reader.id, w.cli.reader.udp));
  }

  lemma OneTable(c: Config, w: World)
    requires Good(c, w)
    ensures w.cli.channels !! w.cli.udpChannels && w.cli.infos == w.cli.channels + w.cli.udpChannels
  {}

  lemma Closes(c: Config, w: World, id: Id)
    requires Sound(c) && Good(c, w) && w.cli.reader == LClose(id)
    ensures Good(c, LocalClosed(w, id))
  {
    hide Good, Sound;
    GoodKept(c, w, ClientClose, LocalClosed(w, id));
  }

  lemma PipeFacts(c: Config, w: World, id: Id)
    requires Good(c, w) && LocalAt(w.cli.pipes, id, LRemove)
    ensures if w.cli.pipes[id].udp then id !in w.cli.channels else id !in w.cli.udpChannels
  {
    ClientFacts(c, w, id);
  }

  lemma Removes(c: Config, w: World, id: Id)
    requires Sound(c) && Good(c, w) && LocalAt(w.cli.pipes, id, LRemove)
    ensures Good(c, LocalRemoved(w, id)) && LocalRemoved(w, id).loc == w.loc
    ensures LocalRemoved(w, id).cli.pipes.Keys == w.cli.pipes.Keys
    ensures var udp, l, l' := w.cli.pipes[id].udp, w.cli, LocalRemoved(w, id).cli;
            && l'.channels == (if udp then l.channels else l.channels - {id})
            && l'.udpChannels == (if udp then l.udpChannels - {id} else l.udpChannels)
            && l'.infos == l.infos - {id} && l'.total == l.total
            && l'.active == l.active - if id in (if udp then l.udpChannels else l.channels) then 1 else 0
  {
    hide Good, Sound;
    GoodKept(c, w, LocalRemove(id), LocalRemoved(w, id));
  }

  lemma Shuts(c: Config, w: World, id: Id)
    requires Sound(c) && Good(c, w) && LocalAt(w.cli.pipes, id, LShut)
    ensures Good(c, w.(loc := Shut(w.loc, id), cli := w.cli.(pipes := Moved(w.cli.pipes, id, LExited))))
  {
    hide Good, Sound;
    GoodKept(c, w, LocalShut(id), w.(loc := Shut(w.loc, id), cli := w.cli.(pipes := Moved(w.cli.pipes, id, LExited))));
  }
}
