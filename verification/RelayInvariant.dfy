/**
 * The inductive invariant of the relay link. It speaks about one channel at a time: `ViewOf(w, id)` is
 * everything in the world that concerns channel `id`, and `Local` relates those parts to each other.
 */
module RelayInvariant {
  import opened Options
  import opened RelayTypes
  import opened RelayMachine

  // ---------------------------------------------------------------- frames of one channel

  function Plain(z: Lz4, f: Frame): Bytes {
    match f
    case Data(_, p) => p
    case Packed(_, p) => if z.decompress(p).Some? then z.decompress(p).value else []
    case _ => []
  }

  /** The bytes that the frames of channel `k` in `q` carry, in order. */
  function Flat(z: Lz4, q: seq<Frame>, k: Id): Bytes {
    if q == [] then [] else (if q[0].On(k) then Plain(z, q[0]) else []) + Flat(z, q[1..], k)
  }

  lemma {:induction false} FlatSnoc(z: Lz4, q: seq<Frame>, f: Frame, k: Id)
    ensures Flat(z, q + [f], k) == Flat(z, q, k) + (if f.On(k) then Plain(z, f) else [])
  {
    if q == [] {
      assert [f][1..] == [];
    } else {
      assert (q + [f])[1..] == q[1..] + [f];
      FlatSnoc(z, q[1..], f, k);
    }
  }

  predicate HasNew(q: seq<Frame>, k: Id) { New(k, false) in q || New(k, true) in q }

  predicate HasData(q: seq<Frame>, k: Id) { exists i :: 0 <= i < |q| && (q[i].Data? || q[i].Packed?) && q[i].id == k }

  lemma {:induction false} NoDataFlat(z: Lz4, q: seq<Frame>, k: Id)
    requires !HasData(q, k)
    ensures Flat(z, q, k) == []
  {
    if q != [] {
      assert forall i :: 0 <= i < |q[1..]| ==> q[1..][i] == q[i + 1];
      NoDataFlat(z, q[1..], k);
    }
  }

  // ---------------------------------------------------------------- the view of one channel

  function ServerAt(r: ServerReader, id: Id): ServerReader {
    if r.SIdle? || r.SPong? || r.SPost? || r.id != id then SIdle else r
  }

  function ClientAt(r: ClientReader, id: Id): ClientReader {
    if r.LIdle? || r.id != id then LIdle else r
  }

  /** The server's half. */
  datatype ServerView = ServerView(
    acc: AcceptPc, udp: bool, tbl: bool, pipe: PipePc,
    unsaid: bool,                // a session whose new_udp_conn is still owed
    cleaned: bool,               // a session whose close the cleanup has written
    srd: ServerReader)
  {
    predicate Leaving() { pipe.Cleanup? || pipe.Releasing? || pipe.Exited? }
  }

  /** The client's half. */
  datatype ClientView = ClientView(lrd: ClientReader, chan: bool, uchan: bool, lpc: LocalPc, ludp: bool)
  {
    predicate Has() { chan || uchan }
    predicate Parting() { lpc.LRemove? || lpc.LShut? || lpc.LExited? }
    predicate Sending() { lpc.LPiping? || lpc.LGot? }
    predicate Dialling() { lrd.LDial? || lrd.LDialFailed? || lrd.LInserted? || lrd.LCounted? }
  }

  /** One direction: was a new_conn or close ever written (L), is one unread (Q), and the unread bytes. */
  datatype Wire = Wire(newL: bool, closeL: bool, newQ: bool, closeQ: bool, dataQ: bool, flat: Bytes, broken: bool)

  datatype View = View(s: ServerView, d: Wire, u: Wire, c: ClientView, ext: Conn, loc: Conn)

  function Cleaned(s: Server, id: Id): bool {
    && (s.cleaner.CClosed? || s.cleaner.CReleased?)
    && s.cleaner.key in s.sessions && s.sessions[s.cleaner.key] == id
  }

  predicate Unsaid(s: Server, id: Id) { s.udpReader.UInserted? && s.udpReader.id == id }

  function AcceptAt(s: Server, id: Id): AcceptPc { if id in s.accepting then s.accepting[id] else Unseen }

  function PipeOf(s: Server, id: Id): PipePc { if id in s.pipes then s.pipes[id] else Unstarted }

  function LocalOf(c: Client, id: Id): LocalPipe { if id in c.pipes then c.pipes[id] else LocalPipe(false, LUnstarted) }

  function ServerOf(s: Server, id: Id): ServerView {
    ServerView(AcceptAt(s, id), id in s.udpIds, id in s.conns || id in SessionIds(s.sessions), PipeOf(s, id),
               Unsaid(s, id), Cleaned(s, id), ServerAt(s.reader, id))
  }

  function ClientOf(c: Client, id: Id): ClientView {
    ClientView(ClientAt(c.reader, id), id in c.channels, id in c.udpChannels, LocalOf(c, id).pc, LocalOf(c, id).udp)
  }

  function WireOf(z: Lz4, s: Stream, id: Id): Wire {
    Wire(HasNew(s.log, id), Close(id) in s.log, HasNew(s.queue, id), Close(id) in s.queue, HasData(s.queue, id),
         Flat(z, s.queue, id), s.broken)
  }

  function ViewOf(z: Lz4, w: World, id: Id): View {
    View(ServerOf(w.srv, id), WireOf(z, w.down, id), WireOf(z, w.up, id), ClientOf(w.cli, id),
         ConnAt(w.ext, id), ConnAt(w.loc, id))
  }

  predicate Blank(k: Conn) { !k.open && k.input == [] && k.output == [] }

  /** The client has never heard of the channel. */
  predicate Untouched(v: View) {
    && v.c.lrd.LIdle? && !v.c.Has() && v.c.lpc.LUnstarted? && Blank(v.loc)
    && !v.u.closeL && !v.u.closeQ && !v.u.dataQ && v.s.srd.SIdle?
  }

  /** Positions of the accept goroutine, and the kind of the channel. */
  predicate Kind(v: View) {
    && (!v.s.acc.Unseen? ==> !v.s.udp)
    && (v.s.acc.Unseen? && !v.s.udp ==> !v.s.tbl && !v.d.newL)
    && (!v.s.acc.Announced? ==> v.s.pipe.Unstarted? && v.ext.input == [] && v.ext.output == [])
    && (v.s.acc.Announced? ==> !v.s.pipe.Unstarted? && v.d.newL)
    && (v.s.acc.Numbered? ==> !v.s.tbl && !v.d.newL)
    && (v.s.acc.Inserted? ==> v.s.tbl && !v.d.newL)
    && (v.s.acc.SendFailed? ==> v.s.tbl && !v.d.newL && v.d.broken)
    && (v.s.acc.Dropped? ==> !v.s.tbl && !v.d.newL && v.d.broken)
    && (v.s.acc.Returned? ==> !v.s.tbl && !v.d.newL && v.d.broken)
    && (v.s.unsaid ==> v.s.udp && v.s.tbl && !v.d.newL)
    && (v.s.udp && !v.s.unsaid ==> v.d.newL || v.d.broken)
    && (v.s.cleaned ==> v.s.udp && v.s.tbl && !v.s.unsaid && (v.d.closeL || v.d.broken))
    && (v.ext.open ==> !v.s.udp && (v.s.tbl || v.s.acc.Numbered? || v.s.acc.Dropped?))
  }

  /** What the server has sent, and how that follows its positions. */
  predicate Sent(v: View) {
    && (!v.d.newL ==> !v.d.newQ && !v.d.closeL && !v.d.dataQ && Untouched(v))
    && (v.d.newQ ==> Untouched(v))
    && (v.d.closeQ ==> v.d.closeL)
    && (!v.s.acc.Unseen? && v.d.closeL ==> v.s.Leaving())
    && (v.s.Leaving() ==> v.d.closeL || v.d.broken)
    && (v.s.pipe.Releasing? || v.s.pipe.Exited? ==> !v.s.tbl)
    && (v.s.udp && v.d.closeL ==> v.s.cleaned || !v.s.tbl)
    && (v.s.udp && !v.s.tbl ==> v.d.closeL || v.d.broken || v.u.closeL)
    && (v.s.acc.Announced? && !v.s.tbl ==> v.s.Leaving() || v.u.closeL)
    && (v.c.lrd.LClose? ==> v.d.closeL && !v.d.closeQ && !v.d.newQ)
    && (v.d.closeL && !v.d.closeQ && !v.c.lrd.LClose? ==> !v.c.Has() && !v.d.newQ && !v.c.Dialling())
  }

  /** The client's half of the life of a channel. */
  predicate Received(v: View) {
    && (v.c.chan ==> !v.s.udp) && (v.c.uchan ==> v.s.udp)
    && (v.c.lrd.LDial? || v.c.lrd.LInserted? || v.c.lrd.LCounted? ==> v.c.lrd.udp == v.s.udp)
    && (!v.c.lpc.LUnstarted? ==> v.c.ludp == v.s.udp && !v.c.Dialling())
    && (v.c.lrd.LDial? || v.c.lrd.LDialFailed? ==> !v.c.Has() && v.c.lpc.LUnstarted? && Blank(v.loc) && !v.u.closeL)
    && (v.c.lrd.LInserted? || v.c.lrd.LCounted? ==> v.c.Has() && v.c.lpc.LUnstarted? && !v.u.closeL)
    && (v.u.closeQ ==> v.u.closeL)
    && (v.u.dataQ ==> !v.c.lpc.LUnstarted?)
    && (v.u.closeL ==> v.c.Parting() || (v.c.lpc.LUnstarted? && !v.c.Has() && !v.c.Dialling()))
    && (v.c.Parting() ==> v.u.closeL || v.u.broken)
    && (v.c.Has() ==> v.c.lrd.LInserted? || v.c.lrd.LCounted? || !v.c.lpc.LUnstarted? || v.u.broken)
    && (v.c.lpc.LShut? || v.c.lpc.LExited? ==> !v.c.Has())
    && (!v.c.lpc.LUnstarted? && !v.c.Has() ==> v.c.Parting() || v.d.closeL)
    && (v.d.newL && !v.d.newQ && !v.c.Has() && !v.c.Dialling() && v.c.lpc.LUnstarted? ==> v.u.closeL || v.u.broken)
    && (v.loc.open ==> v.c.Has() || v.c.lpc.LShut?)
    && (v.c.lpc.LUnstarted? ==> v.loc.input == [])
  }

  /** The server's handling of what the client sent. */
  predicate Heard(v: View) {
    && (v.s.srd.SClose? || v.s.srd.SRelease? || v.s.srd.SUdp? || v.s.srd.SUdpRelease? ==> v.u.closeL && !v.u.closeQ)
    && (v.s.srd.SData? || v.s.srd.SWrite? ==> !v.c.lpc.LUnstarted?)
    && (v.s.srd.SRelease? ==> !v.s.tbl && !v.s.udp)
    && (v.s.srd.SUdp? ==> !v.s.tbl || v.s.udp)
    && (v.s.srd.SUdpRelease? ==> !v.s.tbl)
    && (v.u.closeL && !v.u.closeQ && !v.s.srd.SClose? && !v.s.srd.SRelease? && !v.s.srd.SUdp? ==> !v.s.tbl)
  }

  function ClientPending(v: View): Bytes { if v.c.lrd.LData? || v.c.lrd.LWrite? then v.c.lrd.data else [] }

  function PipeChunk(v: View): Bytes { if v.s.pipe.Got? then v.s.pipe.chunk else [] }

  predicate ClientLive(v: View) {
    || v.d.newQ || v.c.lrd.LDial? || v.c.lrd.LInserted? || v.c.lrd.LCounted?
    || ((v.c.Has() || v.c.lrd.LWrite?) && v.loc.Usable())
  }

  /** Everything read from the external side that has not been lost, in order. */
  function InFlightDown(v: View): Bytes { v.loc.output + ClientPending(v) + v.d.flat + PipeChunk(v) }

  predicate DownBytes(v: View) {
    !v.s.udp ==>
      && v.loc.output <= v.ext.input
      && (v.s.acc.Announced? && ClientLive(v) ==>
            && InFlightDown(v) <= v.ext.input
            && (v.s.pipe.Piping? || v.s.pipe.Got? ==> InFlightDown(v) == v.ext.input))
  }

  function ServerPending(v: View): Bytes { if v.s.srd.SData? || v.s.srd.SWrite? then v.s.srd.data else [] }

  function LocalChunk(v: View): Bytes { if v.c.lpc.LGot? then v.c.lpc.chunk else [] }

  predicate ServerLive(v: View) { (v.s.tbl || v.s.srd.SWrite?) && v.ext.Usable() }

  function InFlightUp(v: View): Bytes { v.ext.output + ServerPending(v) + v.u.flat + LocalChunk(v) }

  predicate UpBytes(v: View) {
    !v.s.udp ==>
      && v.ext.output <= v.loc.input
      && (ServerLive(v) ==>
            && InFlightUp(v) <= v.loc.input
            && (v.c.lpc.LUnstarted? || v.c.Sending() ==> InFlightUp(v) == v.loc.input))
  }

  /** A channel without a data frame in flight has no bytes in flight. */
  predicate Idle(v: View) { (!v.d.dataQ ==> v.d.flat == []) && (!v.u.dataQ ==> v.u.flat == []) }

  predicate Shape(v: View) { Kind(v) && Sent(v) && Received(v) && Heard(v) }

  predicate Carries(v: View) { Idle(v) && DownBytes(v) && UpBytes(v) }

  predicate Local(v: View) { Shape(v) && Carries(v) }

  // ---------------------------------------------------------------- world-wide parts

  /** Ids are handed out once; sessions are looked up by id without ambiguity; udpMu has one holder. */
  ghost predicate Ids(w: World) {
    && (forall id :: id in w.srv.accepting ==> 0 < id <= w.next)
    && (forall id :: id in w.srv.udpIds ==> 0 < id <= w.next)
    && w.srv.accepting.Keys !! w.srv.udpIds
    && w.srv.conns <= w.srv.accepting.Keys
    && w.srv.pipes.Keys <= w.srv.accepting.Keys
    && (forall k :: k in w.srv.sessions ==> w.srv.sessions[k] in w.srv.udpIds)
    && (forall k, l :: k in w.srv.sessions && l in w.srv.sessions && k != l ==> w.srv.sessions[k] != w.srv.sessions[l])
    && (w.srv.udpReader.UAdmitted? ==> w.srv.udpReader.key !in w.srv.sessions)
    && (w.srv.cleaner.CClosed? || w.srv.cleaner.CReleased? ==> w.srv.cleaner.key in w.srv.sessions)
    && (w.srv.cleaner == CIdle || (!w.srv.udpReader.UAdmitted? && !w.srv.udpReader.UInserted?))
    && (w.srv.udpReader.UInserted? || w.srv.udpReader.USend? ==> w.srv.udpReader.id in w.srv.udpIds)
    && w.next < WRAP
  }

  /** The queue is the unread end of the log. */
  predicate Suffix(s: Stream) { |s.queue| <= |s.log| && s.log[|s.log| - |s.queue|..] == s.queue }

  ghost predicate Fits(z: Lz4, unpacks: bool, log: seq<Frame>) {
    forall i :: 0 <= i < |log| ==>
      && (log[i].Data? || log[i].Packed? ==> |log[i].payload| < MAX_FRAME)
      && (log[i].Packed? ==> unpacks && z.decompress(log[i].payload).Some?)
  }

  /** Each channel is announced once, as what it is. */
  ghost predicate NewsOnce(log: seq<Frame>, udpIds: set<Id>) {
    && (forall i :: 0 <= i < |log| && log[i].New? ==> log[i].udp == (log[i].id in udpIds))
    && (forall i, j :: 0 <= i < j < |log| && log[i].New? && log[j].New? ==> log[i].id != log[j].id)
  }

  /** ... before everything else about it. */
  ghost predicate NewsFirst(log: seq<Frame>) {
    forall j :: 0 <= j < |log| && (log[j].Data? || log[j].Packed? || log[j].Close?) ==> HasNew(log[..j], log[j].id)
  }

  /** A channel is closed once, and a TCP channel has no frame after its close. */
  ghost predicate ClosesLast(log: seq<Frame>, udpIds: set<Id>) {
    && (forall i, j :: 0 <= i < j < |log| && log[i].Close? && log[j].Close? ==> log[i].id != log[j].id)
    && (forall i, j :: 0 <= i < j < |log| && log[i].Close? && log[i].id !in udpIds ==> !log[j].On(log[i].id))
  }

  /** Order on the server-to-client stream. */
  ghost predicate DownOrder(log: seq<Frame>, udpIds: set<Id>) {
    NewsOnce(log, udpIds) && NewsFirst(log) && ClosesLast(log, udpIds)
  }

  /** Order on the client-to-server stream: no announcements, and a close frame is the last word on its channel. */
  ghost predicate UpOrder(log: seq<Frame>) {
    && (forall i :: 0 <= i < |log| ==> !log[i].New?)
    && (forall i, j :: 0 <= i < j < |log| && log[i].Close? ==> !log[j].On(log[i].id))
  }

  /** A chunk fits the buffer it was read into. */
  ghost predicate Chunks(w: World) {
    && (forall id :: id in w.srv.pipes && w.srv.pipes[id].Got? ==> |w.srv.pipes[id].chunk| <= TCP_CHUNK)
    && (forall id :: id in w.cli.pipes && w.cli.pipes[id].pc.LGot? ==> |w.cli.pipes[id].pc.chunk| <= UDP_CHUNK)
    && (w.srv.udpReader.UAdmitted? || w.srv.udpReader.UInserted? || w.srv.udpReader.USend?
        ==> |w.srv.udpReader.data| <= UDP_CHUNK)
  }

  ghost predicate Streams(c: Config, w: World) {
    && Suffix(w.down) && Suffix(w.up)
    && Fits(c.lz4, c.clientUnpacks, w.down.log) && Fits(c.lz4, c.serverUnpacks, w.up.log)
    && DownOrder(w.down.log, w.srv.udpIds) && UpOrder(w.up.log)
  }

  ghost predicate Channels(c: Config, w: World) {
    forall id :: Local(ViewOf(c.lz4, w, id))
  }

  ghost predicate Inv(c: Config, w: World) {
    Ids(w) && Chunks(w) && Streams(c, w) && Channels(c, w)
  }
}
