/**
 * Every step of the relay link keeps the invariant of every channel: for the channel it concerns the step
 * is one move of RelayLocal, for every other channel it changes nothing or only reports a lost connection.
 */
module RelaySteps {
  import opened RelayTypes
  import opened RelayMachine
  import opened RelayInvariant
  import opened RelayLocal

  // ---------------------------------------------------------------- streams and sessions

  predicate IsData(f: Frame, k: Id) { (f.Data? || f.Packed?) && f.id == k }

  lemma Appended(z: Lz4, q: seq<Frame>, f: Frame)
    ensures forall k :: Flat(z, q + [f], k) == Flat(z, q, k) + (if f.On(k) then Plain(z, f) else [])
    ensures forall k :: HasData(q + [f], k) == (HasData(q, k) || IsData(f, k))
    ensures forall k :: HasNew(q + [f], k) == (HasNew(q, k) || (f.New? && f.id == k))
  {
    forall k ensures HasData(q + [f], k) == (HasData(q, k) || IsData(f, k)) {
      assert forall i :: 0 <= i < |q| ==> (q + [f])[i] == q[i];
      assert (q + [f])[|q|] == f;
    }
    forall k ensures Flat(z, q + [f], k) == Flat(z, q, k) + (if f.On(k) then Plain(z, f) else []) {
      FlatSnoc(z, q, f, k);
    }
  }

  lemma Popped(z: Lz4, q: seq<Frame>, k: Id)
    requires q != []
    ensures Flat(z, q, k) == (if q[0].On(k) then Plain(z, q[0]) else []) + Flat(z, q[1..], k)
    ensures HasData(q, k) == (HasData(q[1..], k) || IsData(q[0], k))
    ensures HasNew(q, k) == (HasNew(q[1..], k) || (q[0].New? && q[0].id == k))
    ensures Close(k) in q <==> Close(k) in q[1..] || q[0] == Close(k)
    ensures !HasData(q[1..], k) ==> Flat(z, q[1..], k) == []
  {
    assert q == [q[0]] + q[1..];
    assert forall i :: 0 <= i < |q[1..]| ==> q[1..][i] == q[i + 1];
    if HasData(q, k) && !IsData(q[0], k) {
      var i :| 0 <= i < |q| && (q[i].Data? || q[i].Packed?) && q[i].id == k;
      assert q[1..][i - 1] == q[i];
    }
    if !HasData(q[1..], k) { NoDataFlat(z, q[1..], k); }
  }

  /** What a frame written whole does to the wire of each channel. */
  function Wired(z: Lz4, x: Wire, f: Frame): Wire {
    match f
    case New(_, _) => x.(newL := true, newQ := true)
    case Close(_) => x.(closeL := true, closeQ := true)
    case _ => x.(dataQ := true, flat := x.flat + Plain(z, f))
  }

  lemma SentWire(z: Lz4, s: Stream, f: Frame, k: Id)
    requires !s.broken
    ensures f.On(k) ==> WireOf(z, Send(s, f, true), k) == Wired(z, WireOf(z, s, k), f)
    ensures !f.On(k) ==> WireOf(z, Send(s, f, true), k) == WireOf(z, s, k)
  {
    Appended(z, s.queue, f);
  }

  lemma SentWires(z: Lz4, s: Stream, f: Frame)
    requires !s.broken
    ensures forall k :: !f.On(k) ==> WireOf(z, Send(s, f, true), k) == WireOf(z, s, k)
  {
    hide WireOf;
    forall k { SentWire(z, s, f, k); }
  }

  lemma BrokenWires(z: Lz4, s: Stream, f: Frame)
    ensures forall k :: WireOf(z, Send(s, f, false), k) == WireOf(z, s, k).(broken := true)
  {}

  /** The unread frames are the end of the log. */
  lemma Unread(s: Stream)
    requires Suffix(s) && s.queue != []
    ensures var p := |s.log| - |s.queue|;
            && s.log[p] == s.queue[0]
            && forall i :: 0 <= i < |s.queue[1..]| ==> s.queue[1..][i] == s.log[p + 1 + i]
  {
    assert forall i :: 0 <= i < |s.queue| ==> s.queue[i] == s.log[|s.log| - |s.queue| + i];
  }

  lemma PoppedNews(s: Stream, udpIds: set<Id>, k: Id)
    requires Suffix(s) && s.queue != [] && NewsOnce(s.log, udpIds) && NewsFirst(s.log) && s.queue[0].On(k)
    ensures !HasNew(s.queue[1..], k) && HasNew(s.log, k)
  {
    Unread(s);
    hide Suffix;
    var p := |s.log| - |s.queue|;
    if !s.queue[0].New? {
      assert HasNew(s.log[..p], k);
      var i :| 0 <= i < p && s.log[i].New? && s.log[i].id == k;
    }
  }

  /** A frame just read is announced by no later new_conn, and a close frame by no later close frame. */
  lemma PoppedDown(c: Config, w: World)
    requires Streams(c, w) && w.down.queue != []
    ensures forall k :: w.down.queue[0].On(k) ==> !HasNew(w.down.queue[1..], k)
    ensures w.down.queue[0].Close? ==> w.down.queue[0] !in w.down.queue[1..]
    ensures forall k :: w.down.queue[0].On(k) ==> HasNew(w.down.log, k)
    ensures w.down.queue[0].New? ==> w.down.queue[0].udp == (w.down.queue[0].id in w.srv.udpIds)
    ensures w.down.queue[0].Packed? ==> Unpack(c.clientUnpacks, c.lz4, w.down.queue[0]).Some?
  {
    hide UpOrder, NewsFirst, HasNew;
    Unread(w.down);
    forall k | w.down.queue[0].On(k) ensures !HasNew(w.down.queue[1..], k) && HasNew(w.down.log, k) {
      PoppedNews(w.down, w.srv.udpIds, k);
    }
  }

  lemma PoppedUp(c: Config, w: World)
    requires Streams(c, w) && w.up.queue != []
    ensures w.up.queue[0].Close? ==> w.up.queue[0] !in w.up.queue[1..]
    ensures w.up.queue[0].Packed? ==> Unpack(c.serverUnpacks, c.lz4, w.up.queue[0]).Some?
    ensures !w.up.queue[0].New?
  {
    var log, q := w.up.log, w.up.queue;
    var p := |log| - |q|;
    assert forall i :: 0 <= i < |q| ==> q[i] == log[p + i];
    assert forall i :: 0 <= i < |q[1..]| ==> q[1..][i] == log[p + 1 + i];
    assert log[p] == q[0];
  }

  lemma Packing(z: Lz4, packs: bool, id: Id, chunk: Bytes)
    requires Lawful(z)
    ensures Plain(z, Pack(packs, z, id, chunk)) == chunk && IsData(Pack(packs, z, id, chunk), id)
  {}

  lemma SessionAdded(m: map<Key, Id>, key: Key, id: Id)
    requires key !in m
    ensures SessionIds(m[key := id]) == SessionIds(m) + {id}
  {
    var m' := m[key := id];
    assert forall k :: k in m ==> m'[k] == m[k];
    forall x ensures x in SessionIds(m') <==> x in SessionIds(m) + {id} {
      if x in SessionIds(m) {
        var k :| k in m && m[k] == x;
        assert m'[k] == x;
      }
      if x == id { assert m'[key] == x; }
    }
  }

  ghost predicate Injective(m: map<Key, Id>) {
    forall k, l :: k in m && l in m && k != l ==> m[k] != m[l]
  }

  lemma SessionDropped(m: map<Key, Id>, key: Key)
    requires key in m && Injective(m)
    ensures WithoutId(m, m[key]) == m - {key}
    ensures SessionIds(m - {key}) == SessionIds(m) - {m[key]}
  {
    var m' := m - {key};
    forall x ensures x in SessionIds(m') <==> x in SessionIds(m) - {m[key]} {
      if x in SessionIds(m') { var k :| k in m' && m'[k] == x; assert m[k] == x; }
      if x in SessionIds(m) - {m[key]} { var k :| k in m && m[k] == x; assert m'[k] == x; }
    }
  }

  // ---------------------------------------------------------------- one channel at a time

  /** The view after a failed write: of the server, of the client. */
  function Deaf(v: View): View { v.(d := v.d.(broken := true)) }

  function Mute(v: View): View { v.(u := v.u.(broken := true)) }

  lemma OneChannel(c: Config, w: World, w': World, id: Id)
    requires Channels(c, w) && Local(ViewOf(c.lz4, w', id))
    requires forall k :: k != id ==> ViewOf(c.lz4, w', k) == ViewOf(c.lz4, w, k)
    ensures Channels(c, w')
  {
    hide Local;
    forall k ensures Local(ViewOf(c.lz4, w', k)) {
      assert Local(ViewOf(c.lz4, w, k));
    }
  }

  /** The write of another channel failed; every channel learns that the connection is broken. */
  lemma OneChannelDown(c: Config, w: World, w': World, id: Id)
    requires Channels(c, w) && Local(ViewOf(c.lz4, w', id))
    requires forall k :: k != id ==> ViewOf(c.lz4, w', k) == Deaf(ViewOf(c.lz4, w, k))
    ensures Channels(c, w')
  {
    hide Local;
    forall k ensures Local(ViewOf(c.lz4, w', k)) {
      if k != id { DownLost(ViewOf(c.lz4, w, k), ViewOf(c.lz4, w', k)); }
    }
  }

  lemma OneChannelUp(c: Config, w: World, w': World, id: Id)
    requires Channels(c, w) && Local(ViewOf(c.lz4, w', id))
    requires forall k :: k != id ==> ViewOf(c.lz4, w', k) == Mute(ViewOf(c.lz4, w, k))
    ensures Channels(c, w')
  {
    hide Local;
    forall k ensures Local(ViewOf(c.lz4, w', k)) {
      if k != id { UpLost(ViewOf(c.lz4, w, k), ViewOf(c.lz4, w', k)); }
    }
  }

  lemma Nowhere(c: Config, w: World, w': World)
    requires Channels(c, w)
    requires forall k :: ViewOf(c.lz4, w', k) == ViewOf(c.lz4, w, k)
    ensures Channels(c, w')
  {
    hide Local;
    forall k ensures Local(ViewOf(c.lz4, w', k)) {
      assert Local(ViewOf(c.lz4, w, k));
    }
  }

  // ---------------------------------------------------------------- server: accept goroutines

  lemma AdmitKeeps(c: Config, w: World, w': World)
    requires Channels(c, w) && DoAdmit(c, w, w')
    ensures Channels(c, w')
  {
    hide Local, ClientOf, WireOf;
    forall k ensures ViewOf(c.lz4, w', k) == ViewOf(c.lz4, w, k) {}
    Nowhere(c, w, w');
  }

  lemma OtherDrawKeeps(c: Config, w: World, w': World)
    requires Channels(c, w) && DoOtherDraw(w, w')
    ensures Channels(c, w')
  {
    hide Local, ClientOf, WireOf;
    forall k ensures ViewOf(c.lz4, w', k) == ViewOf(c.lz4, w, k) {}
    Nowhere(c, w, w');
  }

  lemma NumberKeeps(c: Config, w: World, w': World)
    requires Channels(c, w) && Ids(w) && DoNumber(w, w')
    ensures Channels(c, w')
  {
    hide Local, ClientOf, WireOf;
    var id := w'.next;
    var v, v' := ViewOf(c.lz4, w, id), ViewOf(c.lz4, w', id);
    Numbering(v, v');
    forall k | k != id ensures ViewOf(c.lz4, w', k) == ViewOf(c.lz4, w, k) {}
    OneChannel(c, w, w', id);
  }

  lemma InsertKeeps(c: Config, w: World, id: Id, w': World)
    requires Channels(c, w) && DoInsert(w, id, w')
    ensures Channels(c, w')
  {
    hide Local, ClientOf, WireOf;
    var v, v' := ViewOf(c.lz4, w, id), ViewOf(c.lz4, w', id);
    Inserting(v, v');
    forall k | k != id ensures ViewOf(c.lz4, w', k) == ViewOf(c.lz4, w, k) {}
    OneChannel(c, w, w', id);
  }

  lemma AnnounceKeeps(c: Config, w: World, id: Id, ok: bool, w': World)
    requires Channels(c, w) && DoAnnounce(w, id, ok, w')
    ensures Channels(c, w')
  {
    hide Local, ClientOf, SessionIds;
    var v, v' := ViewOf(c.lz4, w, id), ViewOf(c.lz4, w', id);
    if ok {
      SentWire(c.lz4, w.down, New(id, false), id);
      SentWires(c.lz4, w.down, New(id, false));
      hide WireOf;
      Announcing(v, v');
      forall k | k != id ensures ViewOf(c.lz4, w', k) == ViewOf(c.lz4, w, k) {}
      OneChannel(c, w, w', id);
    } else {
      BrokenWires(c.lz4, w.down, New(id, false));
      hide WireOf;
      NotAnnounced(v, v');
      forall k | k != id ensures ViewOf(c.lz4, w', k) == Deaf(ViewOf(c.lz4, w, k)) {}
      OneChannelDown(c, w, w', id);
    }
  }

  lemma DropFailedKeeps(c: Config, w: World, id: Id, w': World)
    requires Channels(c, w) && Ids(w) && DoDropFailed(w, id, w')
    ensures Channels(c, w')
  {
    hide Local, ClientOf, WireOf;
    var v, v' := ViewOf(c.lz4, w, id), ViewOf(c.lz4, w', id);
    Dropping(v, v');
    forall k | k != id ensures ViewOf(c.lz4, w', k) == ViewOf(c.lz4, w, k) {}
    OneChannel(c, w, w', id);
  }

  lemma ReleaseFailedKeeps(c: Config, w: World, id: Id, w': World)
    requires Channels(c, w) && DoReleaseFailed(c, w, id, w')
    ensures Channels(c, w')
  {
    hide Local, ClientOf, WireOf;
    var v, v' := ViewOf(c.lz4, w, id), ViewOf(c.lz4, w', id);
    Returning(v, v');
    forall k | k != id ensures ViewOf(c.lz4, w', k) == ViewOf(c.lz4, w, k) {}
    OneChannel(c, w, w', id);
  }

  // ---------------------------------------------------------------- server: pipeExternalToClient

  lemma PipeReadKeeps(c: Config, w: World, id: Id, chunk: Bytes, w': World)
    requires Channels(c, w) && DoPipeRead(w, id, chunk, w')
    ensures Channels(c, w')
  {
    hide Local, ClientOf, WireOf;
    var v, v' := ViewOf(c.lz4, w, id), ViewOf(c.lz4, w', id);
    Reading(v, v', chunk);
    forall k | k != id ensures ViewOf(c.lz4, w', k) == ViewOf(c.lz4, w, k) {}
    OneChannel(c, w, w', id);
  }

  lemma PipeWriteSent(c: Config, w: World, id: Id, w': World)
    requires Channels(c, w) && Sound(c) && DoPipeWrite(c, w, id, true, w')
    ensures Channels(c, w')
  {
    hide Local, ClientOf, SessionIds;
    var v, v' := ViewOf(c.lz4, w, id), ViewOf(c.lz4, w', id);
    var f := Pack(c.serverPacks, c.lz4, id, w.srv.pipes[id].chunk);
    Packing(c.lz4, c.serverPacks, id, w.srv.pipes[id].chunk);
    SentWire(c.lz4, w.down, f, id);
    SentWires(c.lz4, w.down, f);
    hide WireOf;
    Writing(v, v');
    forall k | k != id ensures ViewOf(c.lz4, w', k) == ViewOf(c.lz4, w, k) {}
    OneChannel(c, w, w', id);
  }

  lemma PipeWriteLost(c: Config, w: World, id: Id, w': World)
    requires Channels(c, w) && DoPipeWrite(c, w, id, false, w')
    ensures Channels(c, w')
  {
    hide Local, ClientOf, SessionIds, Pack;
    var v, v' := ViewOf(c.lz4, w, id), ViewOf(c.lz4, w', id);
    BrokenWires(c.lz4, w.down, Pack(c.serverPacks, c.lz4, id, w.srv.pipes[id].chunk));
    hide WireOf;
    NotWritten(v, v');
    forall k | k != id ensures ViewOf(c.lz4, w', k) == Deaf(ViewOf(c.lz4, w, k)) {}
    OneChannelDown(c, w, w', id);
  }

  lemma PipeWriteKeeps(c: Config, w: World, id: Id, ok: bool, w': World)
    requires Channels(c, w) && Sound(c) && DoPipeWrite(c, w, id, ok, w')
    ensures Channels(c, w')
  {
    hide Channels, Sound, DoPipeWrite;
    if ok { PipeWriteSent(c, w, id, w'); } else { PipeWriteLost(c, w, id, w'); }
  }

  lemma PipeEofKeeps(c: Config, w: World, id: Id, w': World)
    requires Channels(c, w) && DoPipeEof(w, id, w')
    ensures Channels(c, w')
  {
    hide Local, ClientOf, WireOf;
    var v, v' := ViewOf(c.lz4, w, id), ViewOf(c.lz4, w', id);
    Ending(v, v');
    forall k | k != id ensures ViewOf(c.lz4, w', k) == ViewOf(c.lz4, w, k) {}
    OneChannel(c, w, w', id);
  }

  lemma PipeCloseKeeps(c: Config, w: World, id: Id, ok: bool, w': World)
    requires Channels(c, w) && DoPipeClose(w, id, ok, w')
    ensures Channels(c, w')
  {
    hide Local, ClientOf, SessionIds;
    var v, v' := ViewOf(c.lz4, w, id), ViewOf(c.lz4, w', id);
    if ok {
      SentWire(c.lz4, w.down, Close(id), id);
      SentWires(c.lz4, w.down, Close(id));
      hide WireOf;
      Closing(v, v');
      forall k | k != id ensures ViewOf(c.lz4, w', k) == ViewOf(c.lz4, w, k) {}
      OneChannel(c, w, w', id);
    } else {
      BrokenWires(c.lz4, w.down, Close(id));
      hide WireOf;
      NotClosed(v, v');
      forall k | k != id ensures ViewOf(c.lz4, w', k) == Deaf(ViewOf(c.lz4, w, k)) {}
      OneChannelDown(c, w, w', id);
    }
  }

  lemma PipeRemoveKeeps(c: Config, w: World, id: Id, w': World)
    requires Channels(c, w) && Ids(w) && DoPipeRemove(w, id, w')
    ensures Channels(c, w')
  {
    hide Local, ClientOf, WireOf;
    var v, v' := ViewOf(c.lz4, w, id), ViewOf(c.lz4, w', id);
    if v.s.tbl {
      Removing(v, v');
    } else {
      Gone(v, v');
    }
    forall k | k != id ensures ViewOf(c.lz4, w', k) == ViewOf(c.lz4, w, k) {}
    OneChannel(c, w, w', id);
  }

  lemma PipeReleaseKeeps(c: Config, w: World, id: Id, w': World)
    requires Channels(c, w) && DoPipeRelease(c, w, id, w')
    ensures Channels(c, w')
  {
    hide Local, ClientOf, WireOf;
    var v, v' := ViewOf(c.lz4, w, id), ViewOf(c.lz4, w', id);
    Freeing(v, v');
    forall k | k != id ensures ViewOf(c.lz4, w', k) == ViewOf(c.lz4, w, k) {}
    OneChannel(c, w, w', id);
  }

  // ---------------------------------------------------------------- server: relayReadLoop

  lemma ServerReceiveKeeps(c: Config, w: World, w': World)
    requires Channels(c, w) && Streams(c, w) && DoServerReceive(c, w, w')
    ensures Channels(c, w')
  {
    hide Local;
    var q, f := w.up.queue, w.up.queue[0];
    PoppedUp(c, w);
    hide Streams;
    forall k ensures !f.On(k) ==> ViewOf(c.lz4, w', k) == ViewOf(c.lz4, w, k) { Popped(c.lz4, q, k); }
    if f.Close? {
      TookClose(c, w, w');
      OneChannel(c, w, w', f.id);
    } else if f.Data? || f.Packed? {
      TookData(c, w, w');
      OneChannel(c, w, w', f.id);
    } else {
      Nowhere(c, w, w');
    }
  }

  lemma TookClose(c: Config, w: World, w': World)
    requires Channels(c, w) && DoServerReceive(c, w, w')
    requires w.up.queue[0].Close? && w.up.queue[0] !in w.up.queue[1..]
    ensures Local(ViewOf(c.lz4, w', w.up.queue[0].id))
  {
    hide Local;
    var id := w.up.queue[0].id;
    Popped(c.lz4, w.up.queue, id);
    HearClose(ViewOf(c.lz4, w, id), ViewOf(c.lz4, w', id), id);
  }

  lemma TookData(c: Config, w: World, w': World)
    requires Channels(c, w) && DoServerReceive(c, w, w')
    requires var f := w.up.queue[0]; (f.Data? || f.Packed?) && Unpack(c.serverUnpacks, c.lz4, f).Some?
    ensures Local(ViewOf(c.lz4, w', w.up.queue[0].id))
  {
    hide Local;
    var q, f := w.up.queue, w.up.queue[0];
    Popped(c.lz4, q, f.id);
    HearData(ViewOf(c.lz4, w, f.id), ViewOf(c.lz4, w', f.id), f.id, Plain(c.lz4, f), Flat(c.lz4, q[1..], f.id),
             HasData(q[1..], f.id));
  }

  lemma ServerPongKeeps(c: Config, w: World, ok: bool, w': World)
    requires Channels(c, w) && DoServerPong(w, ok, w')
    ensures Channels(c, w')
  {
    hide Local, WireOf;
    if ok {
      SentWires(c.lz4, w.down, Pong);
      forall k ensures ViewOf(c.lz4, w', k) == ViewOf(c.lz4, w, k) {}
      Nowhere(c, w, w');
    } else {
      BrokenWires(c.lz4, w.down, Pong);
      forall k ensures ViewOf(c.lz4, w', k) == Deaf(ViewOf(c.lz4, w, k)) {}
      DownLost(ViewOf(c.lz4, w, 0), ViewOf(c.lz4, w', 0));
      OneChannelDown(c, w, w', 0);
    }
  }

  lemma ServerCloseTcpKeeps(c: Config, w: World, w': World)
    requires Channels(c, w) && Ids(w) && DoServerCloseTcp(w, w')
    ensures Channels(c, w')
  {
    hide Local, ClientOf, WireOf;
    var id := w.srv.reader.id;
    var v, v' := ViewOf(c.lz4, w, id), ViewOf(c.lz4, w', id);
    if id in w.srv.conns {
      Unlink(v, v');
    } else {
      Miss(v, v');
    }
    forall k | k != id ensures ViewOf(c.lz4, w', k) == ViewOf(c.lz4, w, k) {}
    OneChannel(c, w, w', id);
  }

  lemma ServerReleaseKeeps(c: Config, w: World, w': World)
    requires Channels(c, w) && DoServerRelease(c, w, w')
    ensures Channels(c, w')
  {
    hide Local, ClientOf, WireOf;
    var id := w.srv.reader.id;
    var v, v' := ViewOf(c.lz4, w, id), ViewOf(c.lz4, w', id);
    Unlinked(v, v');
    forall k | k != id ensures ViewOf(c.lz4, w', k) == ViewOf(c.lz4, w, k) {}
    OneChannel(c, w, w', id);
  }

  lemma ServerCloseUdpKeeps(c: Config, w: World, w': World)
    requires Channels(c, w) && Ids(w) && DoServerCloseUdp(w, w')
    ensures Channels(c, w')
  {
    hide Local, ClientOf, WireOf;
    var id := w.srv.reader.id;
    var v, v' := ViewOf(c.lz4, w, id), ViewOf(c.lz4, w', id);
    if id in SessionIds(w.srv.sessions) {
      var key :| key in w.srv.sessions && w.srv.sessions[key] == id;
      SessionDropped(w.srv.sessions, key);
      UnlinkUdp(v, v');
    } else {
      TcpUnlinked(v);
      MissUdp(v, v');
    }
    forall k | k != id ensures ViewOf(c.lz4, w', k) == ViewOf(c.lz4, w, k) {}
    OneChannel(c, w, w', id);
  }

  /** By the time the UDP table is searched, the TCP table no longer has the channel. */
  lemma TcpUnlinked(v: View)
    requires Local(v) && v.s.srd.SUdp?
    ensures v.s.tbl ==> v.s.udp
  {}

  lemma ServerReleaseUdpKeeps(c: Config, w: World, w': World)
    requires Channels(c, w) && DoServerReleaseUdp(c, w, w')
    ensures Channels(c, w')
  {
    hide Local, ClientOf, WireOf;
    var id := w.srv.reader.id;
    var v, v' := ViewOf(c.lz4, w, id), ViewOf(c.lz4, w', id);
    UnlinkedUdp(v, v');
    forall k | k != id ensures ViewOf(c.lz4, w', k) == ViewOf(c.lz4, w, k) {}
    OneChannel(c, w, w', id);
  }

  lemma ServerLookupKeeps(c: Config, w: World, w': World)
    requires Channels(c, w) && Ids(w) && DoServerLookup(w, w')
    ensures Channels(c, w')
  {
    hide Local, ClientOf, WireOf;
    var id := w.srv.reader.id;
    var v, v' := ViewOf(c.lz4, w, id), ViewOf(c.lz4, w', id);
    if id in w.srv.conns {
      Find(v, v');
    } else {
      Lose(v, v');
    }
    forall k | k != id ensures ViewOf(c.lz4, w', k) == ViewOf(c.lz4, w, k) {}
    OneChannel(c, w, w', id);
  }

  lemma ServerWriteKeeps(c: Config, w: World, n: nat, ok: bool, w': World)
    requires Channels(c, w) && DoServerWrite(w, n, ok, w')
    ensures Channels(c, w')
  {
    hide Local, ClientOf, WireOf;
    var id := w.srv.reader.id;
    var v, v' := ViewOf(c.lz4, w, id), ViewOf(c.lz4, w', id);
    if ok {
      assert w.srv.reader.data[..n] == w.srv.reader.data;
      Deliver(v, v');
    } else {
      Fault(v, v', n);
    }
    forall k | k != id ensures ViewOf(c.lz4, w', k) == ViewOf(c.lz4, w, k) {}
    OneChannel(c, w, w', id);
  }

  lemma ServerPostKeeps(c: Config, w: World, w': World)
    requires Channels(c, w) && DoServerPost(w, w')
    ensures Channels(c, w')
  {
    hide Local, ClientOf, WireOf;
    forall k ensures ViewOf(c.lz4, w', k) == ViewOf(c.lz4, w, k) {}
    Nowhere(c, w, w');
  }

  // ---------------------------------------------------------------- server: udpReadLoop and udpSessionCleanup

  lemma UdpHitKeeps(c: Config, w: World, key: Key, data: Bytes, w': World)
    requires Channels(c, w) && DoUdpHit(w, key, data, w')
    ensures Channels(c, w')
  {
    hide Local, ClientOf, WireOf;
    forall k ensures ViewOf(c.lz4, w', k) == ViewOf(c.lz4, w, k) {}
    Nowhere(c, w, w');
  }

  lemma UdpAdmitKeeps(c: Config, w: World, key: Key, data: Bytes, w': World)
    requires Channels(c, w) && DoUdpAdmit(c, w, key, data, w')
    ensures Channels(c, w')
  {
    hide Local, ClientOf, WireOf;
    forall k ensures ViewOf(c.lz4, w', k) == ViewOf(c.lz4, w, k) {}
    Nowhere(c, w, w');
  }

  lemma UdpInsertKeeps(c: Config, w: World, w': World)
    requires Channels(c, w) && Ids(w) && DoUdpInsert(w, w')
    ensures Channels(c, w')
  {
    hide Local, ClientOf, WireOf;
    var id := w'.next;
    var v, v' := ViewOf(c.lz4, w, id), ViewOf(c.lz4, w', id);
    SessionAdded(w.srv.sessions, w.srv.udpReader.key, id);
    Joining(v, v');
    forall k | k != id ensures ViewOf(c.lz4, w', k) == ViewOf(c.lz4, w, k) {}
    OneChannel(c, w, w', id);
  }

  lemma UdpAnnounceSent(c: Config, w: World, w': World)
    requires Channels(c, w) && DoUdpAnnounce(w, true, w')
    ensures Channels(c, w')
  {
    hide Local, ClientOf, SessionIds;
    var id := w.srv.udpReader.id;
    var v, v' := ViewOf(c.lz4, w, id), ViewOf(c.lz4, w', id);
    SentWire(c.lz4, w.down, New(id, true), id);
    SentWires(c.lz4, w.down, New(id, true));
    hide WireOf;
    Saying(v, v');
    forall k | k != id ensures ViewOf(c.lz4, w', k) == ViewOf(c.lz4, w, k) {}
    OneChannel(c, w, w', id);
  }

  lemma UdpAnnounceLost(c: Config, w: World, w': World)
    requires Channels(c, w) && DoUdpAnnounce(w, false, w')
    ensures Channels(c, w')
  {
    hide Local, ClientOf, SessionIds;
    var id := w.srv.udpReader.id;
    var v, v' := ViewOf(c.lz4, w, id), ViewOf(c.lz4, w', id);
    BrokenWires(c.lz4, w.down, New(id, true));
    hide WireOf;
    NotSaid(v, v');
    forall k | k != id ensures ViewOf(c.lz4, w', k) == Deaf(ViewOf(c.lz4, w, k)) {}
    OneChannelDown(c, w, w', id);
  }

  lemma UdpAnnounceKeeps(c: Config, w: World, ok: bool, w': World)
    requires Channels(c, w) && DoUdpAnnounce(w, ok, w')
    ensures Channels(c, w')
  {
    hide Channels, DoUdpAnnounce;
    if ok { UdpAnnounceSent(c, w, w'); } else { UdpAnnounceLost(c, w, w'); }
  }

  lemma UdpWriteSent(c: Config, w: World, w': World)
    requires Channels(c, w) && Ids(w) && Sound(c) && DoUdpWrite(c, w, true, w')
    ensures Channels(c, w')
  {
    hide Local, ClientOf, SessionIds;
    var id, data := w.srv.udpReader.id, w.srv.udpReader.data;
    var v, v' := ViewOf(c.lz4, w, id), ViewOf(c.lz4, w', id);
    Packing(c.lz4, c.serverPacks, id, data);
    SentWire(c.lz4, w.down, Pack(c.serverPacks, c.lz4, id, data), id);
    SentWires(c.lz4, w.down, Pack(c.serverPacks, c.lz4, id, data));
    hide WireOf;
    Announced(v);
    Relaying(v, v', data);
    forall k | k != id ensures ViewOf(c.lz4, w', k) == ViewOf(c.lz4, w, k) {}
    OneChannel(c, w, w', id);
  }

  lemma UdpWriteLost(c: Config, w: World, w': World)
    requires Channels(c, w) && DoUdpWrite(c, w, false, w')
    ensures Channels(c, w')
  {
    hide Local, ClientOf, SessionIds, Pack;
    var id, data := w.srv.udpReader.id, w.srv.udpReader.data;
    var v, v' := ViewOf(c.lz4, w, id), ViewOf(c.lz4, w', id);
    BrokenWires(c.lz4, w.down, Pack(c.serverPacks, c.lz4, id, data));
    hide WireOf;
    DownLost(v, v');
    forall k | k != id ensures ViewOf(c.lz4, w', k) == Deaf(ViewOf(c.lz4, w, k)) {}
    OneChannelDown(c, w, w', id);
  }

  lemma UdpWriteKeeps(c: Config, w: World, ok: bool, w': World)
    requires Channels(c, w) && Ids(w) && Sound(c) && DoUdpWrite(c, w, ok, w')
    ensures Channels(c, w')
  {
    hide Channels, Ids, Sound, DoUdpWrite;
    if ok { UdpWriteSent(c, w, w'); } else { UdpWriteLost(c, w, w'); }
  }

  /** While the stream works, only the session just inserted is unannounced. */
  lemma Announced(v: View)
    requires Local(v) && v.s.udp && !v.s.unsaid && !v.d.broken
    ensures v.d.newL
  {}

  lemma CleanLockKeeps(c: Config, w: World, w': World)
    requires Channels(c, w) && DoCleanLock(w, w')
    ensures Channels(c, w')
  {
    hide Local, ClientOf, WireOf;
    forall k ensures ViewOf(c.lz4, w', k) == ViewOf(c.lz4, w, k) {}
    Nowhere(c, w, w');
  }

  lemma CleanCloseKeeps(c: Config, w: World, key: Key, ok: bool, w': World)
    requires Channels(c, w) && Ids(w) && DoCleanClose(w, key, ok, w')
    ensures Channels(c, w')
  {
    hide Local, ClientOf;
    var id := w.srv.sessions[key];
    var v, v' := ViewOf(c.lz4, w, id), ViewOf(c.lz4, w', id);
    if ok {
      SentWire(c.lz4, w.down, Close(id), id);
      SentWires(c.lz4, w.down, Close(id));
      hide WireOf;
      Cleaning(v, v');
      forall k | k != id ensures ViewOf(c.lz4, w', k) == ViewOf(c.lz4, w, k) {}
      OneChannel(c, w, w', id);
    } else {
      BrokenWires(c.lz4, w.down, Close(id));
      hide WireOf;
      NotCleaned(v, v');
      forall k | k != id ensures ViewOf(c.lz4, w', k) == Deaf(ViewOf(c.lz4, w, k)) {}
      OneChannelDown(c, w, w', id);
    }
  }

  lemma CleanReleaseKeeps(c: Config, w: World, w': World)
    requires Channels(c, w) && DoCleanRelease(c, w, w')
    ensures Channels(c, w')
  {
    hide Local, ClientOf, WireOf;
    forall k ensures ViewOf(c.lz4, w', k) == ViewOf(c.lz4, w, k) {}
    Nowhere(c, w, w');
  }

  lemma CleanDeleteKeeps(c: Config, w: World, w': World)
    requires Channels(c, w) && Ids(w) && DoCleanDelete(w, w')
    ensures Channels(c, w')
  {
    hide Local, ClientOf, WireOf;
    var id := w.srv.sessions[w.srv.cleaner.key];
    var v, v' := ViewOf(c.lz4, w, id), ViewOf(c.lz4, w', id);
    SessionDropped(w.srv.sessions, w.srv.cleaner.key);
    Forget(v, v');
    forall k | k != id ensures ViewOf(c.lz4, w', k) == ViewOf(c.lz4, w, k) {}
    OneChannel(c, w, w', id);
  }

  lemma CleanUnlockKeeps(c: Config, w: World, w': World)
    requires Channels(c, w) && DoCleanUnlock(w, w')
    ensures Channels(c, w')
  {
    hide Local, ClientOf, WireOf;
    forall k ensures ViewOf(c.lz4, w', k) == ViewOf(c.lz4, w, k) {}
    Nowhere(c, w, w');
  }

  // ---------------------------------------------------------------- client: readLoop

  lemma ClientReceiveKeeps(c: Config, w: World, w': World)
    requires Channels(c, w) && Streams(c, w) && DoClientReceive(c, w, w')
    ensures Channels(c, w')
  {
    hide Local;
    var q, f := w.down.queue, w.down.queue[0];
    PoppedDown(c, w);
    hide Streams;
    forall k ensures !f.On(k) ==> ViewOf(c.lz4, w', k) == ViewOf(c.lz4, w, k) { Popped(c.lz4, q, k); }
    if f.New? {
      TookNew(c, w, w');
      OneChannel(c, w, w', f.id);
    } else if f.Close? {
      TookLocalClose(c, w, w');
      OneChannel(c, w, w', f.id);
    } else if f.Data? || f.Packed? {
      TookLocalData(c, w, w');
      OneChannel(c, w, w', f.id);
    } else {
      Nowhere(c, w, w');
    }
  }

  lemma TookNew(c: Config, w: World, w': World)
    requires Channels(c, w) && DoClientReceive(c, w, w')
    requires var f := w.down.queue[0]; f.New? && f.udp == (f.id in w.srv.udpIds) && !HasNew(w.down.queue[1..], f.id)
    ensures Local(ViewOf(c.lz4, w', w.down.queue[0].id))
  {
    hide Local;
    var id := w.down.queue[0].id;
    Popped(c.lz4, w.down.queue, id);
    TakeNew(ViewOf(c.lz4, w, id), ViewOf(c.lz4, w', id), id);
  }

  lemma TookLocalClose(c: Config, w: World, w': World)
    requires Channels(c, w) && DoClientReceive(c, w, w')
    requires var f := w.down.queue[0]; f.Close? && f !in w.down.queue[1..] && !HasNew(w.down.queue[1..], f.id)
    ensures Local(ViewOf(c.lz4, w', w.down.queue[0].id))
  {
    hide Local;
    var id := w.down.queue[0].id;
    Popped(c.lz4, w.down.queue, id);
    TakeClose(ViewOf(c.lz4, w, id), ViewOf(c.lz4, w', id), id);
  }

  lemma TookLocalData(c: Config, w: World, w': World)
    requires Channels(c, w) && DoClientReceive(c, w, w')
    requires var f := w.down.queue[0];
             (f.Data? || f.Packed?) && Unpack(c.clientUnpacks, c.lz4, f).Some?
             && HasNew(w.down.log, f.id) && !HasNew(w.down.queue[1..], f.id)
    ensures Local(ViewOf(c.lz4, w', w.down.queue[0].id))
  {
    hide Local;
    var q, f := w.down.queue, w.down.queue[0];
    Popped(c.lz4, q, f.id);
    TakeData(ViewOf(c.lz4, w, f.id), ViewOf(c.lz4, w', f.id), f.id, Plain(c.lz4, f), Flat(c.lz4, q[1..], f.id),
             HasData(q[1..], f.id));
  }

  lemma ClientPingKeeps(c: Config, w: World, ok: bool, w': World)
    requires Channels(c, w) && DoClientPing(w, ok, w')
    ensures Channels(c, w')
  {
    hide Local, WireOf;
    if ok {
      SentWires(c.lz4, w.up, Ping);
      forall k ensures ViewOf(c.lz4, w', k) == ViewOf(c.lz4, w, k) {}
      Nowhere(c, w, w');
    } else {
      BrokenWires(c.lz4, w.up, Ping);
      forall k ensures ViewOf(c.lz4, w', k) == Mute(ViewOf(c.lz4, w, k)) {}
      UpLost(ViewOf(c.lz4, w, 0), ViewOf(c.lz4, w', 0));
      OneChannelUp(c, w, w', 0);
    }
  }

  lemma ClientDialKeeps(c: Config, w: World, ok: bool, w': World)
    requires Channels(c, w) && DoClientDial(w, ok, w')
    ensures Channels(c, w')
  {
    hide Local, ServerOf, WireOf;
    var id := w.cli.reader.id;
    var v, v' := ViewOf(c.lz4, w, id), ViewOf(c.lz4, w', id);
    if ok {
      DialledKind(v);
      Dialled(v, v');
    } else {
      DialError(v, v');
    }
    forall k | k != id ensures ViewOf(c.lz4, w', k) == ViewOf(c.lz4, w, k) {}
    OneChannel(c, w, w', id);
  }

  lemma DialledKind(v: View)
    requires Local(v) && v.c.lrd.LDial?
    ensures v.c.lrd.udp == v.s.udp && !v.c.Has()
  {}

  lemma ClientDialCloseKeeps(c: Config, w: World, ok: bool, w': World)
    requires Channels(c, w) && DoClientDialClose(w, ok, w')
    ensures Channels(c, w')
  {
    hide Local, ServerOf;
    var id := w.cli.reader.id;
    var v, v' := ViewOf(c.lz4, w, id), ViewOf(c.lz4, w', id);
    if ok {
      SentWire(c.lz4, w.up, Close(id), id);
      SentWires(c.lz4, w.up, Close(id));
      hide WireOf;
      Refuse(v, v');
      forall k | k != id ensures ViewOf(c.lz4, w', k) == ViewOf(c.lz4, w, k) {}
      OneChannel(c, w, w', id);
    } else {
      BrokenWires(c.lz4, w.up, Close(id));
      hide WireOf;
      NotRefused(v, v');
      forall k | k != id ensures ViewOf(c.lz4, w', k) == Mute(ViewOf(c.lz4, w, k)) {}
      OneChannelUp(c, w, w', id);
    }
  }

  lemma ClientCountKeeps(c: Config, w: World, w': World)
    requires Channels(c, w) && DoClientCount(w, w')
    ensures Channels(c, w')
  {
    hide Local, ServerOf, WireOf;
    var id := w.cli.reader.id;
    var v, v' := ViewOf(c.lz4, w, id), ViewOf(c.lz4, w', id);
    Count(v, v');
    forall k | k != id ensures ViewOf(c.lz4, w', k) == ViewOf(c.lz4, w, k) {}
    OneChannel(c, w, w', id);
  }

  lemma ClientReadyKeeps(c: Config, w: World, ok: bool, w': World)
    requires Channels(c, w) && DoClientReady(w, ok, w')
    ensures Channels(c, w')
  {
    hide Local, ServerOf;
    var id := w.cli.reader.id;
    var v, v' := ViewOf(c.lz4, w, id), ViewOf(c.lz4, w', id);
    if ok {
      SentWire(c.lz4, w.up, Ready(id), id);
      SentWires(c.lz4, w.up, Ready(id));
      hide WireOf;
      Pipe(v, v');
      forall k | k != id ensures ViewOf(c.lz4, w', k) == ViewOf(c.lz4, w, k) {}
      OneChannel(c, w, w', id);
    } else {
      BrokenWires(c.lz4, w.up, Ready(id));
      hide WireOf;
      NotPiped(v, v');
      forall k | k != id ensures ViewOf(c.lz4, w', k) == Mute(ViewOf(c.lz4, w, k)) {}
      OneChannelUp(c, w, w', id);
    }
  }

  lemma ClientCloseKeeps(c: Config, w: World, w': World)
    requires Channels(c, w) && DoClientClose(w, w')
    ensures Channels(c, w')
  {
    hide Local, ServerOf, WireOf;
    var id := w.cli.reader.id;
    var v, v' := ViewOf(c.lz4, w, id), ViewOf(c.lz4, w', id);
    if v.c.Has() {
      Cut(v, v');
    } else {
      Ignore(v, v');
    }
    forall k | k != id ensures ViewOf(c.lz4, w', k) == ViewOf(c.lz4, w, k) {}
    OneChannel(c, w, w', id);
  }

  lemma ClientLookupKeeps(c: Config, w: World, w': World)
    requires Channels(c, w) && DoClientLookup(w, w')
    ensures Channels(c, w')
  {
    hide Local, ServerOf, WireOf;
    var id := w.cli.reader.id;
    var v, v' := ViewOf(c.lz4, w, id), ViewOf(c.lz4, w', id);
    if v.c.Has() {
      FindLocal(v, v');
    } else {
      LoseLocal(v, v');
    }
    forall k | k != id ensures ViewOf(c.lz4, w', k) == ViewOf(c.lz4, w, k) {}
    OneChannel(c, w, w', id);
  }

  lemma ClientWriteKeeps(c: Config, w: World, n: nat, ok: bool, w': World)
    requires Channels(c, w) && DoClientWrite(w, n, ok, w')
    ensures Channels(c, w')
  {
    hide Local, ServerOf, WireOf;
    var id := w.cli.reader.id;
    var v, v' := ViewOf(c.lz4, w, id), ViewOf(c.lz4, w', id);
    if ok {
      assert w.cli.reader.data[..n] == w.cli.reader.data;
      DeliverLocal(v, v');
    } else {
      FaultLocal(v, v', n);
    }
    forall k | k != id ensures ViewOf(c.lz4, w', k) == ViewOf(c.lz4, w, k) {}
    OneChannel(c, w, w', id);
  }

  // ---------------------------------------------------------------- client: pipeLocalToRelay and pipeUDPFromRelay

  lemma LocalReadKeeps(c: Config, w: World, id: Id, chunk: Bytes, w': World)
    requires Channels(c, w) && DoLocalRead(w, id, chunk, w')
    ensures Channels(c, w')
  {
    hide Local, ServerOf, WireOf;
    var v, v' := ViewOf(c.lz4, w, id), ViewOf(c.lz4, w', id);
    LocalReading(v, v', chunk);
    forall k | k != id ensures ViewOf(c.lz4, w', k) == ViewOf(c.lz4, w, k) {}
    OneChannel(c, w, w', id);
  }

  lemma LocalWriteKeeps(c: Config, w: World, id: Id, ok: bool, w': World)
    requires Channels(c, w) && Sound(c) && DoLocalWrite(c, w, id, ok, w')
    ensures Channels(c, w')
  {
    hide Local, ServerOf;
    Packing(c.lz4, c.clientPacks, id, w.cli.pipes[id].pc.chunk);
    var v, v' := ViewOf(c.lz4, w, id), ViewOf(c.lz4, w', id);
    if ok {
      SentWire(c.lz4, w.up, Pack(c.clientPacks, c.lz4, id, w.cli.pipes[id].pc.chunk), id);
      SentWires(c.lz4, w.up, Pack(c.clientPacks, c.lz4, id, w.cli.pipes[id].pc.chunk));
      hide WireOf;
      LocalWriting(v, v');
      forall k | k != id ensures ViewOf(c.lz4, w', k) == ViewOf(c.lz4, w, k) {}
      OneChannel(c, w, w', id);
    } else {
      BrokenWires(c.lz4, w.up, Pack(c.clientPacks, c.lz4, id, w.cli.pipes[id].pc.chunk));
      hide WireOf;
      LocalNotWritten(v, v');
      forall k | k != id ensures ViewOf(c.lz4, w', k) == Mute(ViewOf(c.lz4, w, k)) {}
      OneChannelUp(c, w, w', id);
    }
  }

  lemma LocalExitKeeps(c: Config, w: World, id: Id, w': World)
    requires Channels(c, w) && DoLocalExit(w, id, w')
    ensures Channels(c, w')
  {
    hide Local, ServerOf, WireOf;
    var v, v' := ViewOf(c.lz4, w, id), ViewOf(c.lz4, w', id);
    LocalEnding(v, v');
    forall k | k != id ensures ViewOf(c.lz4, w', k) == ViewOf(c.lz4, w, k) {}
    OneChannel(c, w, w', id);
  }

  lemma LocalCloseKeeps(c: Config, w: World, id: Id, ok: bool, w': World)
    requires Channels(c, w) && DoLocalClose(w, id, ok, w')
    ensures Channels(c, w')
  {
    hide Local, ServerOf;
    var v, v' := ViewOf(c.lz4, w, id), ViewOf(c.lz4, w', id);
    if ok {
      SentWire(c.lz4, w.up, Close(id), id);
      SentWires(c.lz4, w.up, Close(id));
      hide WireOf;
      LocalClosing(v, v');
      forall k | k != id ensures ViewOf(c.lz4, w', k) == ViewOf(c.lz4, w, k) {}
      OneChannel(c, w, w', id);
    } else {
      BrokenWires(c.lz4, w.up, Close(id));
      hide WireOf;
      LocalNotClosed(v, v');
      forall k | k != id ensures ViewOf(c.lz4, w', k) == Mute(ViewOf(c.lz4, w, k)) {}
      OneChannelUp(c, w, w', id);
    }
  }

  lemma LocalRemoveKeeps(c: Config, w: World, id: Id, w': World)
    requires Channels(c, w) && DoLocalRemove(w, id, w')
    ensures Channels(c, w')
  {
    hide Local, ServerOf, WireOf;
    var v, v' := ViewOf(c.lz4, w, id), ViewOf(c.lz4, w', id);
    LocalRemoving(v, v');
    forall k | k != id ensures ViewOf(c.lz4, w', k) == ViewOf(c.lz4, w, k) {}
    OneChannel(c, w, w', id);
  }

  lemma LocalShutKeeps(c: Config, w: World, id: Id, w': World)
    requires Channels(c, w) && DoLocalShut(w, id, w')
    ensures Channels(c, w')
  {
    hide Local, ServerOf, WireOf;
    var v, v' := ViewOf(c.lz4, w, id), ViewOf(c.lz4, w', id);
    LocalShutting(v, v');
    forall k | k != id ensures ViewOf(c.lz4, w', k) == ViewOf(c.lz4, w, k) {}
    OneChannel(c, w, w', id);
  }
}
