/**
 * The relay link as a transition system. Every goroutine of both endpoints is a position; each
 * lock-protected block, each limiter operation, each frame read or write and each connection read or
 * write is one step. A UDP block holds udpMu over several steps, because inside it the source also
 * touches the limiter, the id counter and the outgoing stream, which udpMu does not protect.
 */
module RelayMachine {
  import opened Options
  import opened RelayTypes

  datatype Step =
    | Admit | Number | Insert(id: Id) | Announce(id: Id, ok: bool)
    | DropFailed(id: Id) | ReleaseFailed(id: Id)
    | PipeRead(id: Id, chunk: Bytes) | PipeWrite(id: Id, ok: bool) | PipeEof(id: Id)
    | PipeClose(id: Id, ok: bool) | PipeRemove(id: Id) | PipeRelease(id: Id)
    | ServerReceive | ServerPong(ok: bool)
    | ServerCloseTcp | ServerRelease | ServerCloseUdp | ServerReleaseUdp
    | ServerLookup | ServerWrite(n: nat, ok: bool) | ServerPost
    | UdpHit(key: Key, data: Bytes) | UdpAdmit(key: Key, data: Bytes) | UdpInsert | UdpAnnounce(ok: bool)
    | UdpWrite(ok: bool)
    | CleanLock | CleanClose(key: Key, ok: bool) | CleanRelease | CleanDelete | CleanUnlock
    | ClientReceive | ClientPing(ok: bool)
    | ClientDial(ok: bool) | ClientDialClose(ok: bool) | ClientCount | ClientReady(ok: bool)
    | ClientClose | ClientLookup | ClientWrite(n: nat, ok: bool)
    | LocalRead(id: Id, chunk: Bytes) | LocalWrite(id: Id, ok: bool) | LocalExit(id: Id)
    | LocalClose(id: Id, ok: bool) | LocalRemove(id: Id) | LocalShut(id: Id)
    | OtherDraw

  function Init(): World {
    World(0,
          Server({}, map[], 0, 0, map[], map[], SIdle, UIdle, CIdle, {}),
          Client({}, {}, {}, 0, 0, LIdle, map[]),
          map[], map[],
          Stream([], [], false), Stream([], [], false), [])
  }

  // ---------------------------------------------------------------- which goroutine takes a step

  predicate AcceptStep(st: Step) {
    st.Admit? || st.Number? || st.Insert? || st.Announce? || st.DropFailed? || st.ReleaseFailed?
  }

  predicate PipeStep(st: Step) {
    st.PipeRead? || st.PipeWrite? || st.PipeEof? || st.PipeClose? || st.PipeRemove? || st.PipeRelease?
  }

  predicate ReaderStep(st: Step) {
    st.ServerReceive? || st.ServerPong? || st.ServerCloseTcp? || st.ServerRelease?
    || st.ServerCloseUdp? || st.ServerReleaseUdp? || st.ServerLookup? || st.ServerWrite?
    || st.ServerPost?
  }

  predicate PacketStep(st: Step) {
    st.UdpHit? || st.UdpAdmit? || st.UdpInsert? || st.UdpAnnounce? || st.UdpWrite?
  }

  predicate CleanStep(st: Step) {
    st.CleanLock? || st.CleanClose? || st.CleanRelease? || st.CleanDelete? || st.CleanUnlock?
  }

  predicate LoopStep(st: Step) {
    st.ClientReceive? || st.ClientPing? || st.ClientDial? || st.ClientDialClose?
    || st.ClientCount? || st.ClientReady? || st.ClientClose? || st.ClientLookup? || st.ClientWrite?
  }

  predicate LocalStep(st: Step) {
    st.LocalRead? || st.LocalWrite? || st.LocalExit? || st.LocalClose? || st.LocalRemove? || st.LocalShut?
  }

  predicate ClientStep(st: Step) { LoopStep(st) || LocalStep(st) }

  /** startTCPService: the accept loop. */
  ghost predicate AcceptNext(c: Config, w: World, st: Step, w': World) {
    match st
    case Admit => DoAdmit(c, w, w')
    case Number => DoNumber(w, w')
    case Insert(id) => DoInsert(w, id, w')
    case Announce(id, ok) => DoAnnounce(w, id, ok, w')
    case DropFailed(id) => DoDropFailed(w, id, w')
    case ReleaseFailed(id) => DoReleaseFailed(c, w, id, w')
    case _ => false
  }

  /** pipeExternalToClient. */
  ghost predicate PipeNext(c: Config, w: World, st: Step, w': World) {
    match st
    case PipeRead(id, chunk) => DoPipeRead(w, id, chunk, w')
    case PipeWrite(id, ok) => DoPipeWrite(c, w, id, ok, w')
    case PipeEof(id) => DoPipeEof(w, id, w')
    case PipeClose(id, ok) => DoPipeClose(w, id, ok, w')
    case PipeRemove(id) => DoPipeRemove(w, id, w')
    case PipeRelease(id) => DoPipeRelease(c, w, id, w')
    case _ => false
  }

  /** relayReadLoop. */
  ghost predicate ReaderNext(c: Config, w: World, st: Step, w': World) {
    match st
    case ServerReceive => DoServerReceive(c, w, w')
    case ServerPong(ok) => DoServerPong(w, ok, w')
    case ServerCloseTcp => DoServerCloseTcp(w, w')
    case ServerRelease => DoServerRelease(c, w, w')
    case ServerCloseUdp => DoServerCloseUdp(w, w')
    case ServerReleaseUdp => DoServerReleaseUdp(c, w, w')
    case ServerLookup => DoServerLookup(w, w')
    case ServerWrite(n, ok) => DoServerWrite(w, n, ok, w')
    case ServerPost => DoServerPost(w, w')
    case _ => false
  }

  /** udpReadLoop. */
  ghost predicate PacketNext(c: Config, w: World, st: Step, w': World) {
    match st
    case UdpHit(key, data) => DoUdpHit(w, key, data, w')
    case UdpAdmit(key, data) => DoUdpAdmit(c, w, key, data, w')
    case UdpInsert => DoUdpInsert(w, w')
    case UdpAnnounce(ok) => DoUdpAnnounce(w, ok, w')
    case UdpWrite(ok) => DoUdpWrite(c, w, ok, w')
    case _ => false
  }

  /** udpSessionCleanup. */
  ghost predicate CleanNext(c: Config, w: World, st: Step, w': World) {
    match st
    case CleanLock => DoCleanLock(w, w')
    case CleanClose(key, ok) => DoCleanClose(w, key, ok, w')
    case CleanRelease => DoCleanRelease(c, w, w')
    case CleanDelete => DoCleanDelete(w, w')
    case CleanUnlock => DoCleanUnlock(w, w')
    case _ => false
  }

  /** The client's readLoop. */
  ghost predicate LoopNext(c: Config, w: World, st: Step, w': World) {
    match st
    case ClientReceive => DoClientReceive(c, w, w')
    case ClientPing(ok) => DoClientPing(w, ok, w')
    case ClientDial(ok) => DoClientDial(w, ok, w')
    case ClientDialClose(ok) => DoClientDialClose(w, ok, w')
    case ClientCount => DoClientCount(w, w')
    case ClientReady(ok) => DoClientReady(w, ok, w')
    case ClientClose => DoClientClose(w, w')
    case ClientLookup => DoClientLookup(w, w')
    case ClientWrite(n, ok) => DoClientWrite(w, n, ok, w')
    case _ => false
  }

  /** pipeLocalToRelay and pipeUDPFromRelay. */
  ghost predicate LocalNext(c: Config, w: World, st: Step, w': World) {
    match st
    case LocalRead(id, chunk) => DoLocalRead(w, id, chunk, w')
    case LocalWrite(id, ok) => DoLocalWrite(c, w, id, ok, w')
    case LocalExit(id) => DoLocalExit(w, id, w')
    case LocalClose(id, ok) => DoLocalClose(w, id, ok, w')
    case LocalRemove(id) => DoLocalRemove(w, id, w')
    case LocalShut(id) => DoLocalShut(w, id, w')
    case _ => false
  }

  ghost predicate ServerNext(c: Config, w: World, st: Step, w': World) {
    if AcceptStep(st) then AcceptNext(c, w, st, w')
    else if PipeStep(st) then PipeNext(c, w, st, w')
    else if ReaderStep(st) then ReaderNext(c, w, st, w')
    else if PacketStep(st) then PacketNext(c, w, st, w')
    else CleanNext(c, w, st, w')
  }

  ghost predicate ClientNext(c: Config, w: World, st: Step, w': World) {
    if LocalStep(st) then LocalNext(c, w, st, w') else LoopNext(c, w, st, w')
  }

  ghost predicate Next(c: Config, w: World, st: Step, w': World) {
    if st.OtherDraw? then DoOtherDraw(w, w')
    else if ClientStep(st) then ClientNext(c, w, st, w')
    else ServerNext(c, w, st, w')
  }

  // ---------------------------------------------- limiter and counter, plugin/connlimit.go:17-37

  /** OnAccept answers true. Without a client limit there is no limiter at all. */
  predicate CanAdmit(c: Config, current: int) { c.maxConns <= 0 || current < c.maxConns }

  function Acquired(c: Config, current: int): int { if c.maxConns <= 0 then current else current + 1 }

  function Released(c: Config, current: int): int { if c.maxConns <= 0 then current else current - 1 }

  /** atomic.AddUint32(&nextCID, 1), before the counter wraps. */
  predicate CanDraw(w: World) { w.next + 1 < WRAP }

  predicate DoOtherDraw(w: World, w': World) {
    CanDraw(w) && w' == w.(next := w.next + 1)
  }

  // ---------------------------------------------- server: accept goroutines, signal-server/main.go:700-777

  function WithAdmitted(c: Config, w: World): World {
    w.(srv := w.srv.(current := Acquired(c, w.srv.current), admitted := w.srv.admitted + 1))
  }

  predicate DoAdmit(c: Config, w: World, w': World) {
    CanAdmit(c, w.srv.current) && w' == WithAdmitted(c, w)
  }

  function WithNumbered(w: World): World
    requires w.srv.admitted > 0
  {
    var id := w.next + 1;
    w.(next := id, ext := w.ext[id := FRESH],
       srv := w.srv.(admitted := w.srv.admitted - 1, accepting := w.srv.accepting[id := Numbered]))
  }

  predicate DoNumber(w: World, w': World) {
    w.srv.admitted > 0 && CanDraw(w) && w' == WithNumbered(w)
  }

  predicate At(accepting: map<Id, AcceptPc>, id: Id, pc: AcceptPc) { id in accepting && accepting[id] == pc }

  function WithConn(w: World, id: Id): World {
    w.(srv := w.srv.(conns := w.srv.conns + {id}, accepting := w.srv.accepting[id := Inserted]))
  }

  predicate DoInsert(w: World, id: Id, w': World) {
    At(w.srv.accepting, id, Numbered) && w' == WithConn(w, id)
  }

  predicate DoAnnounce(w: World, id: Id, ok: bool, w': World) {
    && At(w.srv.accepting, id, Inserted)
    && (ok ==> !w.down.broken)
    && w' == if ok
             then w.(down := Send(w.down, New(id, false), true),
                     srv := w.srv.(accepting := w.srv.accepting[id := Announced],
                                   pipes := w.srv.pipes[id := Piping]))
             else w.(down := Send(w.down, New(id, false), false),
                     srv := w.srv.(accepting := w.srv.accepting[id := SendFailed]))
  }

  /** new_conn could not be sent: the entry is deleted without looking whether it is still there. */
  function WithoutFailed(w: World, id: Id): World {
    w.(srv := w.srv.(conns := w.srv.conns - {id}, accepting := w.srv.accepting[id := Dropped]))
  }

  predicate DoDropFailed(w: World, id: Id, w': World) {
    At(w.srv.accepting, id, SendFailed) && w' == WithoutFailed(w, id)
  }

  function FailureReleased(c: Config, w: World, id: Id): World {
    w.(ext := Shut(w.ext, id),
       srv := w.srv.(current := Released(c, w.srv.current), accepting := w.srv.accepting[id := Returned]))
  }

  predicate DoReleaseFailed(c: Config, w: World, id: Id, w': World) {
    At(w.srv.accepting, id, Dropped) && w' == FailureReleased(c, w, id)
  }

  // ---------------------------------------------------------------- connections

  function ConnAt(m: map<Id, Conn>, id: Id): Conn { if id in m then m[id] else NOCONN }

  function Shut(m: map<Id, Conn>, id: Id): map<Id, Conn> { m[id := ConnAt(m, id).(open := false)] }

  function Fed(m: map<Id, Conn>, id: Id, chunk: Bytes): map<Id, Conn> {
    m[id := ConnAt(m, id).(input := ConnAt(m, id).input + chunk)]
  }

  /** Write(data): all of it, or an error after `n` bytes; after an error every write fails. */
  predicate Writes(m: map<Id, Conn>, id: Id, data: Bytes, n: nat, ok: bool, m': map<Id, Conn>) {
    var k := ConnAt(m, id);
    && n <= |data|
    && (ok ==> k.Usable() && n == |data|)
    && (!k.Usable() ==> n == 0)
    && m' == m[id := k.(output := k.output + data[..n], writable := k.writable && ok)]
  }

  /** One data frame for a chunk: packed when the sender packs and packing pays. */
  function Pack(packs: bool, lz4: Lz4, id: Id, chunk: Bytes): Frame {
    if packs && lz4.compress(chunk).Some? then Packed(id, lz4.compress(chunk).value) else Data(id, chunk)
  }

  /** What a read loop makes of a data frame; None means the frame is skipped. */
  function Unpack(unpacks: bool, lz4: Lz4, f: Frame): Option<Bytes> {
    match f
    case Data(_, p) => Some(p)
    case Packed(_, p) => if unpacks then lz4.decompress(p) else None
    case _ => None
  }

  // ---------------------------------------------- server: pipeExternalToClient, signal-server/main.go:952-1013

  predicate PipeAt(pipes: map<Id, PipePc>, id: Id, pc: PipePc) { id in pipes && pipes[id] == pc }

  predicate DoPipeRead(w: World, id: Id, chunk: Bytes, w': World) {
    && PipeAt(w.srv.pipes, id, Piping)
    && ConnAt(w.ext, id).open
    && 0 < |chunk| <= TCP_CHUNK
    && w' == w.(ext := Fed(w.ext, id, chunk), srv := w.srv.(pipes := w.srv.pipes[id := Got(chunk)]))
  }

  predicate DoPipeWrite(c: Config, w: World, id: Id, ok: bool, w': World) {
    && id in w.srv.pipes && w.srv.pipes[id].Got?
    && (ok ==> !w.down.broken)
    && w' == w.(down := Send(w.down, Pack(c.serverPacks, c.lz4, id, w.srv.pipes[id].chunk), ok),
                srv := w.srv.(pipes := w.srv.pipes[id := if ok then Piping else Cleanup]))
  }

  predicate DoPipeEof(w: World, id: Id, w': World) {
    && PipeAt(w.srv.pipes, id, Piping)
    && w' == w.(srv := w.srv.(pipes := w.srv.pipes[id := OweClose]))
  }

  predicate DoPipeClose(w: World, id: Id, ok: bool, w': World) {
    && PipeAt(w.srv.pipes, id, OweClose)
    && (ok ==> !w.down.broken)
    && w' == w.(down := Send(w.down, Close(id), ok),
                srv := w.srv.(pipes := w.srv.pipes[id := Cleanup]))
  }

  function PipeRemoved(w: World, id: Id): World {
    w.(ext := Shut(w.ext, id),
       srv := w.srv.(conns := w.srv.conns - {id},
                     pipes := w.srv.pipes[id := if id in w.srv.conns then Releasing else Exited]))
  }

  predicate DoPipeRemove(w: World, id: Id, w': World) {
    PipeAt(w.srv.pipes, id, Cleanup) && w' == PipeRemoved(w, id)
  }

  function PipeReleased(c: Config, w: World, id: Id): World {
    w.(srv := w.srv.(current := Released(c, w.srv.current), pipes := w.srv.pipes[id := Exited]))
  }

  predicate DoPipeRelease(c: Config, w: World, id: Id, w': World) {
    PipeAt(w.srv.pipes, id, Releasing) && w' == PipeReleased(c, w, id)
  }

  // ---------------------------------------------- server: relayReadLoop, signal-server/main.go:1015-1148

  predicate DoServerReceive(c: Config, w: World, w': World) {
    && w.srv.reader == SIdle
    && |w.up.queue| > 0
    && var f := w.up.queue[0];
    var pc := match f
              case Close(id) => SClose(id)
              case Ping => SPong
              case Data(id, _) => SData(id, Unpack(c.serverUnpacks, c.lz4, f).value)
              case Packed(id, _) =>
                if Unpack(c.serverUnpacks, c.lz4, f).Some?
                then SData(id, Unpack(c.serverUnpacks, c.lz4, f).value) else SIdle
              case _ => SIdle;
    w' == w.(up := w.up.(queue := w.up.queue[1..]), srv := w.srv.(reader := pc))
  }

  predicate DoServerPong(w: World, ok: bool, w': World) {
    && w.srv.reader == SPong
    && (ok ==> !w.down.broken)
    && w' == w.(down := Send(w.down, Pong, ok), srv := w.srv.(reader := SIdle))
  }

  /** frameClose, chanMu block. */
  function TcpClosed(w: World, id: Id): World {
    if id in w.srv.conns
    then w.(ext := Shut(w.ext, id), srv := w.srv.(conns := w.srv.conns - {id}, reader := SRelease(id)))
    else w.(srv := w.srv.(reader := SUdp(id)))
  }

  predicate DoServerCloseTcp(w: World, w': World) {
    w.srv.reader.SClose? && w' == TcpClosed(w, w.srv.reader.id)
  }

  function TcpReleased(c: Config, w: World, id: Id): World {
    w.(srv := w.srv.(current := Released(c, w.srv.current), reader := SUdp(id)))
  }

  predicate DoServerRelease(c: Config, w: World, w': World) {
    w.srv.reader.SRelease? && w' == TcpReleased(c, w, w.srv.reader.id)
  }

  predicate UdpFree(w: World) {
    && !w.srv.udpReader.UAdmitted? && !w.srv.udpReader.UInserted?
    && w.srv.cleaner == CIdle
  }

  function SessionIds(m: map<Key, Id>): set<Id> { set k | k in m :: m[k] }

  function WithoutId(m: map<Key, Id>, id: Id): map<Key, Id> { map k | k in m && m[k] != id :: m[k] }

  /** frameClose, udpMu block: the search stops at the first session with this id. */
  function UdpClosed(w: World, id: Id): World {
    if id in SessionIds(w.srv.sessions)
    then w.(srv := w.srv.(sessions := WithoutId(w.srv.sessions, id), reader := SUdpRelease(id)))
    else w.(srv := w.srv.(reader := SIdle))
  }

  predicate DoServerCloseUdp(w: World, w': World) {
    w.srv.reader.SUdp? && UdpFree(w) && w' == UdpClosed(w, w.srv.reader.id)
  }

  function UdpReleased(c: Config, w: World): World {
    w.(srv := w.srv.(current := Released(c, w.srv.current), reader := SIdle))
  }

  predicate DoServerReleaseUdp(c: Config, w: World, w': World) {
    w.srv.reader.SUdpRelease? && w' == UdpReleased(c, w)
  }

  /** The TCP table first, then the session with this channel id. */
  predicate DoServerLookup(w: World, w': World) {
    && w.srv.reader.SData?
    && var id, data, pc := w.srv.reader.id, w.srv.reader.data, w'.srv.reader;
    && (id in w.srv.conns || UdpFree(w))
    && w' == w.(srv := w.srv.(reader := pc))
    && if id in w.srv.conns then pc == SWrite(id, data)
       else if id in SessionIds(w.srv.sessions)
       then pc.SPost? && pc == SPost(id, pc.key, data) && pc.key in w.srv.sessions && w.srv.sessions[pc.key] == id
       else pc == SIdle
  }

  predicate DoServerWrite(w: World, n: nat, ok: bool, w': World) {
    && w.srv.reader.SWrite?
    && Writes(w.ext, w.srv.reader.id, w.srv.reader.data, n, ok, w'.ext)
    && w' == w.(ext := w'.ext, srv := w.srv.(reader := SIdle))
  }

  /** WriteToUDP, whose error is not looked at. */
  predicate DoServerPost(w: World, w': World) {
    && w.srv.reader.SPost?
    && w' == w.(posted := w.posted + [(w.srv.reader.key, w.srv.reader.data)], srv := w.srv.(reader := SIdle))
  }

  // ---------------------------------------------- server: udpReadLoop, signal-server/main.go:808-924

  /** A packet from an address that has a session. */
  predicate DoUdpHit(w: World, key: Key, data: Bytes, w': World) {
    && w.srv.udpReader == UIdle
    && UdpFree(w)
    && key in w.srv.sessions
    && |data| <= UDP_CHUNK
    && w' == SessionFound(w, key, data)
  }

  function SessionFound(w: World, key: Key, data: Bytes): World
    requires key in w.srv.sessions
  {
    w.(srv := w.srv.(udpReader := USend(w.srv.sessions[key], data)))
  }

  predicate DoUdpAdmit(c: Config, w: World, key: Key, data: Bytes, w': World) {
    && w.srv.udpReader == UIdle
    && UdpFree(w)
    && key !in w.srv.sessions
    && |data| <= UDP_CHUNK
    && CanAdmit(c, w.srv.current)
    && w' == SessionAdmitted(c, w, key, data)
  }

  function SessionAdmitted(c: Config, w: World, key: Key, data: Bytes): World {
    w.(srv := w.srv.(current := Acquired(c, w.srv.current), udpReader := UAdmitted(key, data)))
  }

  function WithSession(w: World, key: Key, data: Bytes): World {
    w.(next := w.next + 1,
       srv := w.srv.(sessions := w.srv.sessions[key := w.next + 1],
                     udpIds := w.srv.udpIds + {w.next + 1}, udpReader := UInserted(w.next + 1, data)))
  }

  predicate DoUdpInsert(w: World, w': World) {
    w.srv.udpReader.UAdmitted? && CanDraw(w) && w' == WithSession(w, w.srv.udpReader.key, w.srv.udpReader.data)
  }

  function SessionAnnounced(w: World, id: Id, data: Bytes, ok: bool): World
    requires ok ==> !w.down.broken
  {
    w.(down := Send(w.down, New(id, true), ok), srv := w.srv.(udpReader := USend(id, data)))
  }

  /** new_udp_conn is sent under udpMu and its error is ignored. */
  predicate DoUdpAnnounce(w: World, ok: bool, w': World) {
    && w.srv.udpReader.UInserted?
    && (ok ==> !w.down.broken)
    && w' == SessionAnnounced(w, w.srv.udpReader.id, w.srv.udpReader.data, ok)
  }

  predicate DoUdpWrite(c: Config, w: World, ok: bool, w': World) {
    && w.srv.udpReader.USend?
    && (ok ==> !w.down.broken)
    && w' == w.(down := Send(w.down, Pack(c.serverPacks, c.lz4, w.srv.udpReader.id, w.srv.udpReader.data), ok),
                srv := w.srv.(udpReader := if ok then UIdle else UStopped))
  }

  // ---------------------------------------------- server: udpSessionCleanup, signal-server/main.go:926-949

  function CleanerAt(w: World, pc: Cleaner): World { w.(srv := w.srv.(cleaner := pc)) }

  predicate DoCleanLock(w: World, w': World) {
    UdpFree(w) && w' == CleanerAt(w, CHold)
  }

  function SessionClosed(w: World, key: Key, ok: bool): World
    requires key in w.srv.sessions && (ok ==> !w.down.broken)
  {
    w.(down := Send(w.down, Close(w.srv.sessions[key]), ok), srv := w.srv.(cleaner := CClosed(key)))
  }

  /** An expired session: its close frame is written, an error ignored. */
  predicate DoCleanClose(w: World, key: Key, ok: bool, w': World) {
    && w.srv.cleaner == CHold
    && key in w.srv.sessions
    && (ok ==> !w.down.broken)
    && w' == SessionClosed(w, key, ok)
  }

  function SessionReleased(c: Config, w: World, key: Key): World {
    w.(srv := w.srv.(current := Released(c, w.srv.current), cleaner := CReleased(key)))
  }

  /** The limiter is released before the session is deleted. */
  predicate DoCleanRelease(c: Config, w: World, w': World) {
    w.srv.cleaner.CClosed? && w' == SessionReleased(c, w, w.srv.cleaner.key)
  }

  function WithoutSession(w: World, key: Key): World {
    w.(srv := w.srv.(sessions := w.srv.sessions - {key}, cleaner := CHold))
  }

  predicate DoCleanDelete(w: World, w': World) {
    w.srv.cleaner.CReleased? && w' == WithoutSession(w, w.srv.cleaner.key)
  }

  predicate DoCleanUnlock(w: World, w': World) {
    w.srv.cleaner == CHold && w' == CleanerAt(w, CIdle)
  }

  // ---------------------------------------------- client: readLoop, relay/relay.go:280-456

  predicate DoClientReceive(c: Config, w: World, w': World) {
    && w.cli.reader == LIdle
    && |w.down.queue| > 0
    && var f := w.down.queue[0];
    var pc := match f
              case New(id, udp) => LDial(id, udp)
              case Close(id) => LClose(id)
              case Data(id, _) => LData(id, Unpack(c.clientUnpacks, c.lz4, f).value)
              case Packed(id, _) =>
                if Unpack(c.clientUnpacks, c.lz4, f).Some?
                then LData(id, Unpack(c.clientUnpacks, c.lz4, f).value) else LIdle
              case _ => LIdle;
    w' == w.(down := w.down.(queue := w.down.queue[1..]), cli := w.cli.(reader := pc))
  }

  /** The read deadline passed between two frames. */
  predicate DoClientPing(w: World, ok: bool, w': World) {
    && w.cli.reader == LIdle
    && (ok ==> !w.up.broken)
    && w' == w.(up := Send(w.up, Ping, ok))
  }

  /** handleNewConn, handleNewUDPConn: the mu block after a successful dial. */
  function WithLocal(w: World, id: Id, udp: bool): World {
    w.(loc := w.loc[id := FRESH],
       cli := w.cli.(channels := if udp then w.cli.channels else w.cli.channels + {id},
                     udpChannels := if udp then w.cli.udpChannels + {id} else w.cli.udpChannels,
                     infos := w.cli.infos + {id}, total := w.cli.total + 1,
                     reader := LInserted(id, udp)))
  }

  predicate DoClientDial(w: World, ok: bool, w': World) {
    && w.cli.reader.LDial?
    && w' == if ok then WithLocal(w, w.cli.reader.id, w.cli.reader.udp)
             else w.(cli := w.cli.(reader := LDialFailed(w.cli.reader.id)))
  }

  predicate DoClientDialClose(w: World, ok: bool, w': World) {
    && w.cli.reader.LDialFailed?
    && (ok ==> !w.up.broken)
    && w' == w.(up := Send(w.up, Close(w.cli.reader.id), ok), cli := w.cli.(reader := LIdle))
  }

  function Counted(w: World, id: Id, udp: bool): World {
    w.(cli := w.cli.(active := w.cli.active + 1, reader := LCounted(id, udp)))
  }

  predicate DoClientCount(w: World, w': World) {
    w.cli.reader.LInserted? && w' == Counted(w, w.cli.reader.id, w.cli.reader.udp)
  }

  predicate DoClientReady(w: World, ok: bool, w': World) {
    && w.cli.reader.LCounted?
    && (ok ==> !w.up.broken)
    && var id, udp := w.cli.reader.id, w.cli.reader.udp;
    w' == w.(up := Send(w.up, Ready(id), ok),
             cli := w.cli.(reader := LIdle,
                           pipes := if ok then w.cli.pipes[id := LocalPipe(udp, LPiping)] else w.cli.pipes))
  }

  /** frameClose: one mu block, the counter included. */
  function LocalClosed(w: World, id: Id): World {
    var hits := (if id in w.cli.channels then 1 else 0) + (if id in w.cli.udpChannels then 1 else 0);
    w.(loc := if hits > 0 then Shut(w.loc, id) else w.loc,
       cli := w.cli.(channels := w.cli.channels - {id}, udpChannels := w.cli.udpChannels - {id},
                     infos := w.cli.infos - {id}, active := w.cli.active - hits, reader := LIdle))
  }

  predicate DoClientClose(w: World, w': World) {
    w.cli.reader.LClose? && w' == LocalClosed(w, w.cli.reader.id)
  }

  predicate DoClientLookup(w: World, w': World) {
    && w.cli.reader.LData?
    && var id, data := w.cli.reader.id, w.cli.reader.data;
    w' == w.(cli := w.cli.(reader := if id in w.cli.channels || id in w.cli.udpChannels
                                     then LWrite(id, data) else LIdle))
  }

  predicate DoClientWrite(w: World, n: nat, ok: bool, w': World) {
    && w.cli.reader.LWrite?
    && Writes(w.loc, w.cli.reader.id, w.cli.reader.data, n, ok, w'.loc)
    && w' == w.(loc := w'.loc, cli := w.cli.(reader := LIdle))
  }

  // ---------------------------------------------- client: pipeLocalToRelay, pipeUDPFromRelay, relay/relay.go:458-577

  predicate LocalAt(pipes: map<Id, LocalPipe>, id: Id, pc: LocalPc) { id in pipes && pipes[id].pc == pc }

  function Moved(pipes: map<Id, LocalPipe>, id: Id, pc: LocalPc): map<Id, LocalPipe>
    requires id in pipes
  {
    pipes[id := pipes[id].(pc := pc)]
  }

  predicate DoLocalRead(w: World, id: Id, chunk: Bytes, w': World) {
    && LocalAt(w.cli.pipes, id, LPiping)
    && ConnAt(w.loc, id).open
    && (if w.cli.pipes[id].udp then |chunk| <= UDP_CHUNK else 0 < |chunk| <= TCP_CHUNK)
    && w' == w.(loc := Fed(w.loc, id, chunk),
                cli := w.cli.(pipes := Moved(w.cli.pipes, id, LGot(chunk))))
  }

  predicate DoLocalWrite(c: Config, w: World, id: Id, ok: bool, w': World) {
    && id in w.cli.pipes && w.cli.pipes[id].pc.LGot?
    && (ok ==> !w.up.broken)
    && w' == w.(up := Send(w.up, Pack(c.clientPacks, c.lz4, id, w.cli.pipes[id].pc.chunk), ok),
                cli := w.cli.(pipes := Moved(w.cli.pipes, id, if ok then LPiping else LOweClose)))
  }

  /** The local side ended, failed, idled out, or the client is closing. */
  predicate DoLocalExit(w: World, id: Id, w': World) {
    && LocalAt(w.cli.pipes, id, LPiping)
    && w' == w.(cli := w.cli.(pipes := Moved(w.cli.pipes, id, LOweClose)))
  }

  predicate DoLocalClose(w: World, id: Id, ok: bool, w': World) {
    && LocalAt(w.cli.pipes, id, LOweClose)
    && (ok ==> !w.up.broken)
    && w' == w.(up := Send(w.up, Close(id), ok), cli := w.cli.(pipes := Moved(w.cli.pipes, id, LRemove)))
  }

  /** The pipe's deferred mu block. */
  function LocalRemoved(w: World, id: Id): World
    requires id in w.cli.pipes
  {
    var udp := w.cli.pipes[id].udp;
    var hit := if udp then id in w.cli.udpChannels else id in w.cli.channels;
    w.(cli := w.cli.(channels := if udp then w.cli.channels else w.cli.channels - {id},
                     udpChannels := if udp then w.cli.udpChannels - {id} else w.cli.udpChannels,
                     infos := w.cli.infos - {id},
                     active := if hit then w.cli.active - 1 else w.cli.active,
                     pipes := Moved(w.cli.pipes, id, LShut)))
  }

  predicate DoLocalRemove(w: World, id: Id, w': World) {
    LocalAt(w.cli.pipes, id, LRemove) && w' == LocalRemoved(w, id)
  }

  predicate DoLocalShut(w: World, id: Id, w': World) {
    && LocalAt(w.cli.pipes, id, LShut)
    && w' == w.(loc := Shut(w.loc, id), cli := w.cli.(pipes := Moved(w.cli.pipes, id, LExited)))
  }
}
