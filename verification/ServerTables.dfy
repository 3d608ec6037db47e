/**
 * The server's record of one client: `channelConns`, `udpSessions` and the limiter, as the goroutines change them.
 * Each method is one lock-protected block; `w` is the link's state in RelayMachine, and every method is shown to
 * take exactly the machine's step, so that what RelayTheorems says of the machine holds of these tables.
 */
module ServerTables {
  import opened Options
  import opened RelayTypes
  import opened RelayMachine
  import opened RelayInvariant
  import opened RelaySteps
  import opened RelayStreams
  import opened RelayCounts
  import opened RelayRuns
  import RelayTheorems
  import opened ConnLimit
  import opened Listing
  import opened NetConns
  import opened UdpSessions

  ghost predicate LimiterAgrees(cfg: Config, connLimiter: Limiter?, current: int)
    reads connLimiter
  {
    if cfg.maxConns <= 0 then connLimiter == null
    else connLimiter != null && connLimiter.maxConns == cfg.maxConns && connLimiter.current == current
  }

  /** The table holds what the machine says, and a connection is closed when the machine says so. */
  ghost predicate ConnsAgree(channelConns: map<Id, NetConn>, accepted: map<Id, NetConn>, conns: set<Id>, ids: set<Id>,
                             ext: map<Id, Conn>)
    reads accepted.Values
  {
    && accepted.Keys == ids
    && channelConns.Keys == conns
    && (forall id :: id in channelConns ==> id in accepted && channelConns[id] == accepted[id])
    && (forall id :: id in accepted ==> accepted[id].open == ConnAt(ext, id).open)
    && (forall i, j :: i in accepted && j in accepted && i != j ==> accepted[i] != accepted[j])
  }

  predicate SessionsAgree(udpSessions: Sessions, sessions: map<Key, Id>) {
    && udpSessions.Keys == sessions.Keys
    && forall key :: key in udpSessions ==> udpSessions[key].channelID == sessions[key]
  }

  class RelayClient {
    const cfg: Config
    const connLimiter: Limiter?
    var channelConns: map<Id, NetConn>
    var udpSessions: map<Key, Session>
    ghost var accepted: map<Id, NetConn> // every external connection ever given an id
    ghost var w: World

    ghost predicate Valid()
      reads this, connLimiter, accepted.Values
    {
      && LimiterAgrees(cfg, connLimiter, w.srv.current)
      && ConnsAgree(channelConns, accepted, w.srv.conns, w.srv.accepting.Keys, w.ext)
      && SessionsAgree(udpSessions, w.srv.sessions)
      && Sound(cfg) && Good(cfg, w)
    }

    constructor (cfg: Config)
      requires Sound(cfg)
      ensures Valid() && this.cfg == cfg && w == Init()
    {
      this.cfg := cfg;
      connLimiter := null;
      if cfg.maxConns > 0 { connLimiter := new Limiter(cfg.maxConns); }
      channelConns, udpSessions := map[], map[];
      accepted, w := map[], Init();
      new;
      hide Good, Sound;
      InitGood(cfg);
    }

    /** In every state these methods and Elsewhere reach, so whatever the other goroutines did in between. */
    lemma TablesAreConsistent()
      requires Valid()
      ensures forall k, l :: k in udpSessions && l in udpSessions && k != l
                ==> udpSessions[k].channelID != udpSessions[l].channelID
      ensures forall k :: k in udpSessions ==> udpSessions[k].channelID !in channelConns
      ensures connLimiter != null ==>
                connLimiter.current ==
                |channelConns| + |udpSessions| + NotInserted(w.srv) + NotReleased(w.srv) - Early(w.srv)
    {
      assert |channelConns| == |channelConns.Keys| && |udpSessions| == |udpSessions.Keys|;
      assert |w.srv.sessions| == |w.srv.sessions.Keys|;
      forall k | k in udpSessions ensures udpSessions[k].channelID !in channelConns {
        assert w.srv.sessions[k] in SessionIds(w.srv.sessions);
        RelayTheorems.TableKinds(cfg, w, udpSessions[k].channelID);
      }
    }

    /** Any step of any goroutine that is none of the methods below: it leaves the object agreeing with the link. */
    ghost method Elsewhere(st: Step, w': World)
      requires Valid() && Next(cfg, w, st, w') && !TableStep(st)
      modifies this`w
      ensures Valid() && w == w'
    {
      hide Good, Sound, Next, LimiterAgrees, SessionsAgree, ConnsAgree, TableStep;
      GoodKept(cfg, w, st, w');
      OtherStepsLeave(cfg, w, st, w');
      StillAgrees(channelConns, accepted, w, w');
      w := w';
    }

    // ---------------------------------------------------------------- TCP

    /** The limiter's answer to a new external connection. */
    method Admit() returns (ok: bool)
      requires Valid()
      modifies this`w, connLimiter
      ensures Valid()
      ensures ok <==> CanAdmit(cfg, old(w.srv.current))
      ensures if ok then DoAdmit(cfg, old(w), w) else w == old(w)
    {
      hide Good, Sound, SessionsAgree, ConnsAgree;
      ok := true;
      if connLimiter != null { ok := connLimiter.OnAccept([]); }
      if ok {
        w := WithAdmitted(cfg, w);
        GoodKept(cfg, old(w), Step.Admit, w);
      }
    }

    /** It is given an id from the shared counter, whose value is `nextCID`. */
    method Number(extConn: NetConn, nextCID: Id) returns (id: Id)
      requires Valid() && w.srv.admitted > 0 && CanDraw(w) && nextCID == w.next
      requires extConn.open && extConn !in accepted.Values
      modifies this`accepted, this`w
      ensures Valid() && DoNumber(old(w), w)
      ensures id == nextCID + 1 && accepted == old(accepted)[id := extConn]
    {
      hide Good, Sound, LimiterAgrees, SessionsAgree, ConnsAgree;
      id := nextCID + 1;
      IsNew(cfg, w);
      AcceptedOne(channelConns, accepted, w, id, extConn);
      accepted := accepted[id := extConn];
      w := WithNumbered(w);
      Numbers(cfg, old(w));
    }

    /** startTCPService: the accepted connection enters the table before it is announced. */
    method Insert(id: Id, extConn: NetConn)
      requires Valid() && At(w.srv.accepting, id, Numbered) && extConn == accepted[id]
      modifies this`channelConns, this`w
      ensures Valid() && DoInsert(old(w), id, w)
      ensures channelConns == old(channelConns)[id := extConn]
    {
      hide Good, Sound, LimiterAgrees, SessionsAgree;
      channelConns := channelConns[id := extConn];
      w := WithConn(w, id);
      Inserts(cfg, old(w), id);
    }

    /** new_conn could not be sent. */
    method DropFailed(id: Id)
      requires Valid() && At(w.srv.accepting, id, SendFailed)
      modifies this`channelConns, this`w
      ensures Valid() && DoDropFailed(old(w), id, w)
      ensures channelConns == old(channelConns) - {id}
    {
      hide Good, Sound, LimiterAgrees, SessionsAgree;
      channelConns := channelConns - {id};
      w := WithoutFailed(w, id);
      DropsFailed(cfg, old(w), id);
    }

    method CloseAndRemove(id: Id, extConn: NetConn)
      requires ConnsAgree(channelConns, accepted, w.srv.conns, w.srv.accepting.Keys, w.ext)
      requires id in accepted && extConn == accepted[id]
      modifies this`channelConns, extConn
      ensures ConnsAgree(channelConns, accepted, w.srv.conns - {id}, w.srv.accepting.Keys, Shut(w.ext, id))
      ensures channelConns == old(channelConns) - {id} && !extConn.open
    {
      extConn.Close();
      channelConns := channelConns - {id};
    }

    method CloseConn(id: Id, extConn: NetConn)
      requires ConnsAgree(channelConns, accepted, w.srv.conns, w.srv.accepting.Keys, w.ext)
      requires id in accepted && extConn == accepted[id]
      modifies extConn
      ensures ConnsAgree(channelConns, accepted, w.srv.conns, w.srv.accepting.Keys, Shut(w.ext, id)) && !extConn.open
    {
      extConn.Close();
    }

    lemma Listed(id: Id)
      requires Valid()
      ensures id in channelConns <==> id in w.srv.conns
      ensures id in channelConns ==> id in accepted && channelConns[id] == accepted[id]
      ensures channelConns.Keys == w.srv.conns
    {}

    /** The deferred block of pipeExternalToClient. */
    method PipeRemove(id: Id, extConn: NetConn) returns (existed: bool)
      requires Valid() && PipeAt(w.srv.pipes, id, PipePc.Cleanup) && id in accepted && extConn == accepted[id]
      modifies this`channelConns, this`w, extConn
      ensures Valid() && DoPipeRemove(old(w), id, w)
      ensures existed <==> id in old(channelConns)
      ensures channelConns == old(channelConns) - {id} && !extConn.open
    {
      hide Good, Sound, LimiterAgrees, SessionsAgree, ConnsAgree;
      Listed(id);
      existed := id in channelConns;
      CloseAndRemove(id, extConn);
      w := PipeRemoved(w, id);
      PipeRemoves(cfg, old(w), id);
    }

    /** frameClose under chanMu; only the first to remove the entry closes the connection here. */
    method CloseTcp(id: Id) returns (existed: bool)
      requires Valid() && w.srv.reader == SClose(id)
      modifies this`channelConns, this`w, if id in channelConns then {channelConns[id]} else {}
      ensures Valid() && DoServerCloseTcp(old(w), w)
      ensures existed <==> id in old(channelConns)
      ensures channelConns == old(channelConns) - {id}
      ensures existed ==> !old(channelConns)[id].open
    {
      hide Good, Sound, LimiterAgrees, SessionsAgree, ConnsAgree;
      Listed(id);
      existed := id in channelConns;
      if existed {
        CloseAndRemove(id, channelConns[id]);
      } else {
        assert channelConns - {id} == channelConns;
      }
      TcpCloses(cfg, w, id);
      w := TcpClosed(w, id);
    }

    /** new_conn could not be sent and the entry is gone: the place is given back and the connection closed. */
    method ReleaseFailed(id: Id, extConn: NetConn)
      requires Valid() && At(w.srv.accepting, id, Dropped) && id in accepted && extConn == accepted[id]
      modifies this`w, connLimiter, extConn
      ensures Valid() && DoReleaseFailed(cfg, old(w), id, w)
      ensures connLimiter != null ==> connLimiter.current == old(connLimiter.current) - 1
      ensures !extConn.open
    {
      hide Good, Sound, SessionsAgree, ConnsAgree;
      if connLimiter != null { connLimiter.OnClose(); }
      CloseConn(id, extConn);
      assert w.srv.accepting[id := Returned].Keys == w.srv.accepting.Keys;
      FailureReleases(cfg, w, id);
      w := FailureReleased(cfg, w, id);
    }

    /** A goroutine that removed an entry, or is about to, gives its place back. */
    method Release(ghost st: Step, ghost w': World)
      requires Valid() && Next(cfg, w, st, w')
      requires st.PipeRelease? || st.ServerRelease? || st.ServerReleaseUdp? || st.CleanRelease?
      modifies this`w, connLimiter
      ensures Valid() && w == w'
      ensures connLimiter != null ==> connLimiter.current == old(connLimiter.current) - 1
    {
      hide Good, Sound, SessionsAgree, ConnsAgree;
      if connLimiter != null { connLimiter.OnClose(); }
      w := w';
      GoodKept(cfg, old(w), st, w);
    }

    // ---------------------------------------------------------------- UDP

    /** The search by id over the sessions, in map order, up to the first hit. */
    method FindSession(id: Id) returns (found: Option<Key>)
      ensures found.Some? ==> found.value in udpSessions && udpSessions[found.value].channelID == id
      ensures found.None? ==> forall key :: key in udpSessions ==> udpSessions[key].channelID != id
    {
      var keys := ListOf(udpSessions.Keys);
      for i := 0 to |keys|
        invariant forall key :: key in keys[..i] ==> udpSessions[key].channelID != id
      {
        if udpSessions[keys[i]].channelID == id { return Some(keys[i]); }
      }
      return None;
    }

    /** frameClose under udpMu. */
    method CloseUdp(id: Id) returns (existed: bool)
      requires Valid() && w.srv.reader == SUdp(id) && UdpFree(w)
      modifies this`udpSessions, this`w
      ensures Valid() && DoServerCloseUdp(old(w), w)
      ensures existed <==> exists key :: key in old(udpSessions) && old(udpSessions)[key].channelID == id
      ensures udpSessions == WithoutChannel(old(udpSessions), id)
    {
      hide Good, Sound, LimiterAgrees, ConnsAgree;
      var found := FindSession(id);
      existed := found.Some?;
      if existed {
        udpSessions := udpSessions - {found.value};
        OneSession(cfg, w, old(udpSessions), found.value);
      }
      w := UdpClosed(w, id);
      UdpCloses(cfg, old(w), id);
    }

    /** The udpMu block of udpReadLoop; whether new_udp_conn gets through is not looked at. */
    method Packet(key: Key, data: Bytes, localPort: int, nextCID: Id, now: Time, ghost ok: bool)
      returns (id: Option<Id>)
      requires Valid() && w.srv.udpReader == UIdle && UdpFree(w) && |data| <= UDP_CHUNK
      requires CanDraw(w) && nextCID == w.next && (ok ==> !w.down.broken)
      modifies this`udpSessions, this`w, connLimiter
      ensures Valid()
      ensures udpSessions ==
              Refreshed(old(udpSessions), key, CanAdmit(cfg, old(w.srv.current)), nextCID + 1, localPort, now)
      ensures id == if key in udpSessions then Some(udpSessions[key].channelID) else None
      ensures w == if key in old(udpSessions) then SessionFound(old(w), key, data)
                   else if CanAdmit(cfg, old(w.srv.current)) then SessionOpened(cfg, old(w), key, data, ok)
                   else old(w)
      ensures w.srv.udpReader == if id.Some? then USend(id.value, data) else UIdle
    {
      hide RelayClient.Valid, SessionOpened;
      KnownKey(key);
      if key in udpSessions {
        Refresh(key, data, now);
      } else {
        var joined := OpenSession(key, data, localPort, nextCID, now, ok);
        if !joined { return None; }
      }
      id := Some(udpSessions[key].channelID);
    }

    lemma KnownKey(key: Key)
      requires Valid()
      ensures key in udpSessions <==> key in w.srv.sessions
      ensures key in udpSessions ==> udpSessions[key].channelID == w.srv.sessions[key]
    {}

    /** A packet from a known address. */
    method Refresh(key: Key, data: Bytes, now: Time)
      requires Valid() && w.srv.udpReader == UIdle && UdpFree(w) && key in udpSessions && key in w.srv.sessions
      requires |data| <= UDP_CHUNK
      modifies this`udpSessions, this`w
      ensures Valid() && DoUdpHit(old(w), key, data, w) && w == SessionFound(old(w), key, data)
      ensures w.srv.udpReader == USend(old(udpSessions)[key].channelID, data)
      ensures udpSessions == old(udpSessions)[key := old(udpSessions)[key].(lastActive := now)]
    {
      hide Good, Sound, LimiterAgrees, ConnsAgree;
      udpSessions := udpSessions[key := udpSessions[key].(lastActive := now)];
      w := SessionFound(w, key, data);
      GoodKept(cfg, old(w), UdpHit(key, data), w);
    }

    /** The limiter's answer to a packet from an unknown address. */
    method AdmitSession(key: Key, data: Bytes) returns (ok: bool)
      requires Valid() && w.srv.udpReader == UIdle && UdpFree(w) && key !in udpSessions && |data| <= UDP_CHUNK
      modifies this`w, connLimiter
      ensures Valid()
      ensures ok <==> CanAdmit(cfg, old(w.srv.current))
      ensures if ok then DoUdpAdmit(cfg, old(w), key, data, w) else w == old(w)
      ensures ok ==> w.srv.udpReader == UAdmitted(key, data)
    {
      hide Good, Sound, ConnsAgree;
      ok := true;
      if connLimiter != null { ok := connLimiter.OnAccept([]); }
      if ok {
        SessionAdmits(cfg, w, key, data);
        w := SessionAdmitted(cfg, w, key, data);
      }
    }

    /** Its id and its entry. */
    method EnterSession(key: Key, data: Bytes, localPort: int, nextCID: Id, now: Time)
      requires Valid() && w.srv.udpReader == UAdmitted(key, data) && CanDraw(w) && nextCID == w.next
      modifies this`udpSessions, this`w
      ensures Valid() && DoUdpInsert(old(w), w) && w.srv.udpReader == UInserted(nextCID + 1, data)
      ensures udpSessions == old(udpSessions)[key := Session(nextCID + 1, localPort, now)]
    {
      hide Good, Sound, LimiterAgrees, ConnsAgree;
      udpSessions := udpSessions[key := Session(nextCID + 1, localPort, now)];
      SessionEnters(cfg, w, key, data);
      w := WithSession(w, key, data);
    }

    /** A packet from an unknown address: a place in the limiter, an id, an entry, an announcement. */
    method OpenSession(key: Key, data: Bytes, localPort: int, nextCID: Id, now: Time, ghost ok: bool)
      returns (joined: bool)
      requires Valid() && w.srv.udpReader == UIdle && UdpFree(w) && key !in udpSessions && |data| <= UDP_CHUNK
      requires CanDraw(w) && nextCID == w.next && (ok ==> !w.down.broken)
      modifies this`udpSessions, this`w, connLimiter
      ensures Valid()
      ensures joined <==> CanAdmit(cfg, old(w.srv.current))
      ensures w == if joined then SessionOpened(cfg, old(w), key, data, ok) else old(w)
      ensures joined ==> w.srv.udpReader == USend(nextCID + 1, data)
      ensures udpSessions == if joined then old(udpSessions)[key := Session(nextCID + 1, localPort, now)]
                             else old(udpSessions)
    {
      hide RelayClient.Valid, Next, TableStep;
      joined := AdmitSession(key, data);
      if joined {
        EnterSession(key, data, localPort, nextCID, now);
        Announces(cfg, w, nextCID + 1, data, ok);
        Elsewhere(UdpAnnounce(ok), SessionAnnounced(w, nextCID + 1, data, ok));
      }
    }

    /** The entry of an expired session. */
    method DeleteSession(key: Key)
      requires Valid() && w.srv.cleaner == CReleased(key)
      modifies this`udpSessions, this`w
      ensures Valid() && DoCleanDelete(old(w), w)
      ensures udpSessions == old(udpSessions) - {key}
    {
      hide Good, Sound, LimiterAgrees, ConnsAgree;
      udpSessions := udpSessions - {key};
      SessionDeletes(cfg, w, key);
      w := WithoutSession(w, key);
    }

    /** One expired session is told to the client, released, and deleted; a failed write is not looked at. */
    method Sweep(key: Key) returns (id: Id)
      requires Valid() && w.srv.cleaner == CHold && key in udpSessions
      modifies this`udpSessions, this`w, connLimiter
      ensures Valid() && w.srv.cleaner == CHold && w.srv.udpReader == old(w.srv.udpReader)
      ensures id == old(udpSessions)[key].channelID && udpSessions == old(udpSessions) - {key}
      ensures if old(w.down.broken) then w.down == old(w.down).(broken := true)
              else w.down.log == old(w.down.log) + [Frame.Close(id)]
      ensures connLimiter != null ==> connLimiter.current == old(connLimiter.current) - 1
    {
      hide RelayClient.Valid, Next, TableStep;
      id := udpSessions[key].channelID;
      KnownKey(key);
      Tells(cfg, w, key, !w.down.broken);
      Elsewhere(CleanClose(key, !w.down.broken), SessionClosed(w, key, !w.down.broken));
      Release(CleanRelease, SessionReleased(cfg, w, key));
      DeleteSession(key);
    }

    /** One tick of udpSessionCleanup: exactly the expired sessions go, with one close frame and one release each. */
    method Cleanup(now: Time) returns (closed: seq<Id>)
      requires Valid() && UdpFree(w)
      modifies this`udpSessions, this`w, connLimiter
      ensures Valid() && UdpFree(w)
      ensures udpSessions == Swept(old(udpSessions), now)
      ensures ClosedAre(old(udpSessions), udpSessions, closed)
      ensures |closed| == |old(udpSessions)| - |udpSessions|
      ensures forall id :: id in closed ==> Frame.Close(id) in w.down.log || w.down.broken
      ensures connLimiter != null ==> connLimiter.current == old(connLimiter.current) - |closed|
    {
      hide RelayClient.Valid, ClosedAre, SweptOf, Next, TableStep;
      ghost var before := udpSessions;
      Locks(cfg, w);
      Elsewhere(CleanLock, CleanerAt(w, CHold));
      var keys := ListOf(udpSessions.Keys);
      closed := [];
      NoneClosed(before);
      SweptAll(before, keys, now);
      for i := 0 to |keys|
        invariant Valid() && w.srv.cleaner == CHold && w.srv.udpReader == old(w.srv.udpReader)
        invariant udpSessions == SweptOf(before, keys[..i], now)
        invariant ClosedAre(before, udpSessions, closed)
        invariant |closed| == |before| - |udpSessions|
        invariant forall id :: id in closed ==> Frame.Close(id) in w.down.log || w.down.broken
        invariant connLimiter != null ==> connLimiter.current == old(connLimiter.current) - |closed|
      {
        SweptNext(before, keys, i, now);
        if Expired(udpSessions[keys[i]], now) {
          ghost var was := udpSessions;
          DeletedOne(was, keys[i]);
          var id := Sweep(keys[i]);
          OneMoreClosed(before, was, keys[i], closed);
          closed := closed + [id];
        }
      }
      SweptAll(before, keys, now);
      Unlocks(cfg, w);
      Elsewhere(CleanUnlock, CleanerAt(w, CIdle));
    }
  }

  /** The steps that change a table, the limiter or an external connection's being open; each has its method:
      Admit, Number, Insert, DropFailed, ReleaseFailed, PipeRemove, CloseTcp, CloseUdp, Refresh, AdmitSession,
      EnterSession, DeleteSession, and Release for the other releases. */
  predicate TableStep(st: Step) {
    || (AcceptStep(st) && !st.Announce?)
    || st.PipeRemove? || st.PipeRelease?
    || st.ServerCloseTcp? || st.ServerRelease? || st.ServerCloseUdp? || st.ServerReleaseUdp?
    || st.UdpHit? || st.UdpAdmit? || st.UdpInsert?
    || st.CleanRelease? || st.CleanDelete?
  }

  lemma Locks(c: Config, w: World)
    requires UdpFree(w)
    ensures Next(c, w, CleanLock, CleanerAt(w, CHold)) && !TableStep(CleanLock)
  {
    hide ClientNext, AcceptNext, PipeNext, ReaderNext, PacketNext;
  }

  lemma Unlocks(c: Config, w: World)
    requires w.srv.cleaner == CHold
    ensures Next(c, w, CleanUnlock, CleanerAt(w, CIdle)) && !TableStep(CleanUnlock)
  {
    hide ClientNext, AcceptNext, PipeNext, ReaderNext, PacketNext;
  }

  lemma Tells(c: Config, w: World, key: Key, ok: bool)
    requires w.srv.cleaner == CHold && key in w.srv.sessions && (ok ==> !w.down.broken)
    ensures Next(c, w, CleanClose(key, ok), SessionClosed(w, key, ok)) && !TableStep(CleanClose(key, ok))
    ensures var w' := SessionClosed(w, key, ok); Next(c, w', CleanRelease, SessionReleased(c, w', key))
  {
    hide ClientNext, AcceptNext, PipeNext, ReaderNext, PacketNext, Send;
  }

  lemma Announces(c: Config, w: World, id: Id, data: Bytes, ok: bool)
    requires w.srv.udpReader == UInserted(id, data) && (ok ==> !w.down.broken)
    ensures Next(c, w, UdpAnnounce(ok), SessionAnnounced(w, id, data, ok)) && !TableStep(UdpAnnounce(ok))
  {
    hide ClientNext, AcceptNext, PipeNext, ReaderNext, CleanNext;
  }

  ghost predicate SameTables(w: World, w': World) {
    && w'.srv.current == w.srv.current && w'.srv.conns == w.srv.conns && w'.srv.sessions == w.srv.sessions
    && w'.srv.accepting.Keys == w.srv.accepting.Keys
    && forall id :: ConnAt(w'.ext, id).open == ConnAt(w.ext, id).open
  }

  lemma AcceptsLeave(c: Config, w: World, st: Step, w': World)
    requires AcceptNext(c, w, st, w') && !TableStep(st)
    ensures SameTables(w, w')
  {
    hide Send;
  }

  lemma PipesLeave(c: Config, w: World, st: Step, w': World)
    requires PipeNext(c, w, st, w') && !TableStep(st)
    ensures SameTables(w, w')
  {
    hide Send, Pack;
  }

  lemma ReadersLeave(c: Config, w: World, st: Step, w': World)
    requires ReaderNext(c, w, st, w') && !TableStep(st)
    ensures SameTables(w, w')
  {
    hide Send, Unpack, SessionIds, WithoutId;
  }

  lemma PacketsLeave(c: Config, w: World, st: Step, w': World)
    requires (PacketNext(c, w, st, w') || CleanNext(c, w, st, w')) && !TableStep(st)
    ensures SameTables(w, w')
  {
    hide Send, Pack;
  }

  lemma OtherStepsLeave(c: Config, w: World, st: Step, w': World)
    requires Next(c, w, st, w') && !TableStep(st)
    ensures SameTables(w, w')
  {
    hide AcceptNext, PipeNext, ReaderNext, PacketNext, CleanNext, ClientNext;
    if st.OtherDraw? || ClientStep(st) {
      StepMoves(c, w, st, w');
    } else {
      hide SameTables;
      if AcceptStep(st) {
        AcceptsLeave(c, w, st, w');
      } else if PipeStep(st) {
        PipesLeave(c, w, st, w');
      } else if ReaderStep(st) {
        ReadersLeave(c, w, st, w');
      } else {
        PacketsLeave(c, w, st, w');
      }
    }
  }

  lemma StillAgrees(channelConns: map<Id, NetConn>, accepted: map<Id, NetConn>, w: World, w': World)
    requires SameTables(w, w') && ConnsAgree(channelConns, accepted, w.srv.conns, w.srv.accepting.Keys, w.ext)
    ensures ConnsAgree(channelConns, accepted, w'.srv.conns, w'.srv.accepting.Keys, w'.ext)
    ensures w'.srv.current == w.srv.current && w'.srv.sessions == w.srv.sessions
  {}

  /** The session of `key` was in `m`, is not in `m'`, and was that of channel `id`. */
  predicate Gone(m: Sessions, m': Sessions, key: Key, id: Id) { key in m && key !in m' && m[key].channelID == id }

  /** `closed` holds the channels of the sessions that went, and no others. */
  ghost predicate ClosedAre(m: Sessions, m': Sessions, closed: seq<Id>) {
    && (forall key :: key in m && key !in m' ==> m[key].channelID in closed)
    && (forall id :: id in closed ==> exists key :: Gone(m, m', key, id))
  }

  lemma NoneClosed(m: Sessions)
    ensures ClosedAre(m, m, [])
  {}

  lemma OneMoreClosed(m: Sessions, was: Sessions, key: Key, closed: seq<Id>)
    requires key in was && key in m && was[key] == m[key] && ClosedAre(m, was, closed)
    ensures ClosedAre(m, was - {key}, closed + [was[key].channelID])
  {
    var closed', id' := closed + [was[key].channelID], was[key].channelID;
    assert closed'[|closed|] == id';
    forall k | k in m && k !in was - {key} ensures m[k].channelID in closed' {
      if k != key { assert m[k].channelID in closed; }
    }
    forall id | id in closed' ensures exists k :: Gone(m, was - {key}, k, id) {
      if id == id' {
        assert Gone(m, was - {key}, key, id);
      } else {
        assert id in closed;
        var k :| Gone(m, was, k, id);
        assert Gone(m, was - {key}, k, id);
      }
    }
  }

  /** The table when the loop has been through `done`. */
  function SweptOf(m: Sessions, done: seq<Key>, now: Time): Sessions {
    map key | key in m && !(key in done && Expired(m[key], now)) :: m[key]
  }

  lemma SweptNext(m: Sessions, keys: seq<Key>, i: nat, now: Time)
    requires i < |keys| && Distinct(keys) && forall key :: key in keys <==> key in m.Keys
    ensures var key, rest := keys[i], SweptOf(m, keys[..i], now);
            && key in m && key in rest && rest[key] == m[key]
            && SweptOf(m, keys[..i + 1], now) == if Expired(m[key], now) then rest - {key} else rest
  {
    assert keys[..i + 1] == keys[..i] + [keys[i]] && keys[i] !in keys[..i];
    assert keys[i] in keys;
  }

  lemma SweptAll(m: Sessions, keys: seq<Key>, now: Time)
    requires forall key :: key in keys <==> key in m.Keys
    ensures SweptOf(m, keys[..|keys|], now) == Swept(m, now) && SweptOf(m, [], now) == m
  {
    assert keys[..|keys|] == keys;
  }

  lemma AcceptedOne(channelConns: map<Id, NetConn>, accepted: map<Id, NetConn>, w: World, id: Id, conn: NetConn)
    requires ConnsAgree(channelConns, accepted, w.srv.conns, w.srv.accepting.Keys, w.ext)
    requires id !in w.srv.accepting && conn.open && conn !in accepted.Values
    ensures ConnsAgree(channelConns, accepted[id := conn], w.srv.conns, w.srv.accepting[id := Numbered].Keys,
                       w.ext[id := FRESH])
  {
    assert forall i :: i in accepted ==> accepted[i] in accepted.Values;
  }

  lemma DeletedOne(m: Sessions, key: Key)
    requires key in m
    ensures |m - {key}| == |m| - 1
  {
    assert (m - {key}).Keys == m.Keys - {key};
  }

  /** Admission, number, entry and announcement of a new session, with udpMu held throughout. */
  function SessionOpened(c: Config, w: World, key: Key, data: Bytes, ok: bool): World
    requires ok ==> !w.down.broken
  {
    SessionAnnounced(WithSession(SessionAdmitted(c, w, key, data), key, data), w.next + 1, data, ok)
  }

  lemma SessionAdmits(c: Config, w: World, key: Key, data: Bytes)
    requires Sound(c) && Good(c, w) && w.srv.udpReader == UIdle && UdpFree(w) && key !in w.srv.sessions
    requires CanAdmit(c, w.srv.current) && |data| <= UDP_CHUNK
    ensures Good(c, SessionAdmitted(c, w, key, data))
  {
    hide Good, Sound, ClientNext, AcceptNext, PipeNext, ReaderNext, CleanNext;
    GoodKept(c, w, UdpAdmit(key, data), SessionAdmitted(c, w, key, data));
  }

  lemma SessionEnters(c: Config, w: World, key: Key, data: Bytes)
    requires Sound(c) && Good(c, w) && w.srv.udpReader == UAdmitted(key, data) && CanDraw(w)
    ensures Good(c, WithSession(w, key, data))
  {
    hide Good, Sound, ClientNext, AcceptNext, PipeNext, ReaderNext, CleanNext;
    GoodKept(c, w, UdpInsert, WithSession(w, key, data));
  }

  lemma SessionDeletes(c: Config, w: World, key: Key)
    requires Sound(c) && Good(c, w) && w.srv.cleaner == CReleased(key)
    ensures Good(c, WithoutSession(w, key))
  {
    hide Good, Sound, ClientNext, AcceptNext, PipeNext, ReaderNext, PacketNext;
    GoodKept(c, w, CleanDelete, WithoutSession(w, key));
  }

  lemma FailureReleases(c: Config, w: World, id: Id)
    requires Sound(c) && Good(c, w) && At(w.srv.accepting, id, Dropped)
    ensures Good(c, FailureReleased(c, w, id))
  {
    hide Good, Sound, ClientNext, PipeNext, ReaderNext, PacketNext, CleanNext;
    GoodKept(c, w, Step.ReleaseFailed(id), FailureReleased(c, w, id));
  }

  lemma TcpCloses(c: Config, w: World, id: Id)
    requires Sound(c) && Good(c, w) && w.srv.reader == SClose(id)
    ensures Good(c, TcpClosed(w, id))
  {
    hide Good, Sound, ClientNext, AcceptNext, PipeNext, PacketNext, CleanNext;
    GoodKept(c, w, ServerCloseTcp, TcpClosed(w, id));
  }

  lemma UdpCloses(c: Config, w: World, id: Id)
    requires Sound(c) && Good(c, w) && w.srv.reader == SUdp(id) && UdpFree(w)
    ensures Good(c, UdpClosed(w, id))
  {
    hide Good, Sound, ClientNext, AcceptNext, PipeNext, PacketNext, CleanNext;
    GoodKept(c, w, ServerCloseUdp, UdpClosed(w, id));
  }

  lemma PipeRemoves(c: Config, w: World, id: Id)
    requires Sound(c) && Good(c, w) && PipeAt(w.srv.pipes, id, PipePc.Cleanup)
    ensures Good(c, PipeRemoved(w, id))
  {
    hide Good, Sound, ClientNext, AcceptNext, ReaderNext, PacketNext, CleanNext;
    GoodKept(c, w, Step.PipeRemove(id), PipeRemoved(w, id));
  }

  lemma Inserts(c: Config, w: World, id: Id)
    requires Sound(c) && Good(c, w) && At(w.srv.accepting, id, Numbered)
    ensures Good(c, WithConn(w, id))
  {
    hide Good, Sound, ClientNext, PipeNext, ReaderNext, PacketNext, CleanNext;
    GoodKept(c, w, Step.Insert(id), WithConn(w, id));
  }

  lemma DropsFailed(c: Config, w: World, id: Id)
    requires Sound(c) && Good(c, w) && At(w.srv.accepting, id, SendFailed)
    ensures Good(c, WithoutFailed(w, id))
  {
    hide Good, Sound, ClientNext, PipeNext, ReaderNext, PacketNext, CleanNext;
    GoodKept(c, w, Step.DropFailed(id), WithoutFailed(w, id));
  }

  lemma Numbers(c: Config, w: World)
    requires Sound(c) && Good(c, w) && w.srv.admitted > 0 && CanDraw(w)
    ensures Good(c, WithNumbered(w))
  {
    hide Good, Sound, ClientNext, PipeNext, ReaderNext, PacketNext, CleanNext;
    GoodKept(c, w, Step.Number, WithNumbered(w));
  }

  lemma IsNew(c: Config, w: World)
    requires Good(c, w)
    ensures w.next + 1 !in w.srv.accepting
  {}

  /** No two sessions share a channel, so the first hit is the only one. */
  lemma OneSession(c: Config, w: World, m: Sessions, key: Key)
    requires Good(c, w) && key in m && m.Keys == w.srv.sessions.Keys
    requires forall k :: k in m ==> m[k].channelID == w.srv.sessions[k]
    ensures m - {key} == WithoutChannel(m, m[key].channelID)
    ensures (w.srv.sessions - {key}) == WithoutId(w.srv.sessions, m[key].channelID)
  {}
}
