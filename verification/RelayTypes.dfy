/** Entities of the relay link: one signal-server connection and the client behind it. */
module RelayTypes {
  import opened Options

  type Byte = b: int | 0 <= b < 256
  type Bytes = seq<Byte>
  type Id = nat
  type Key = nat // an external UDP address, as printed by remoteAddr.String()

  const WRAP: nat := 0x1_0000_0000
  const TCP_CHUNK: nat := 32 * 1024
  const UDP_CHUNK: nat := 65535
  const MAX_FRAME: nat := 65536

  /** The frames of the relay link. `New` covers new_conn and new_udp_conn. */
  datatype Frame =
    | New(id: Id, udp: bool)
    | Ready(ready: Id)
    | Ping
    | Pong
    | Data(id: Id, payload: Bytes)
    | Packed(id: Id, payload: Bytes)
    | Close(id: Id)
  {
    /** True if the frame belongs to channel `k`; conn_ready, ping and pong belong to none. */
    predicate On(k: Id) {
      (New? || Data? || Packed? || Close?) && id == k
    }
  }

  /** The LZ4 contract: `compress` returns None where the source returns ok == false. */
  datatype Lz4 = Lz4(compress: Bytes -> Option<Bytes>, decompress: Bytes -> Option<Bytes>)

  ghost predicate Lawful(z: Lz4) {
    forall d: Bytes :: z.compress(d).Some? ==>
      |z.compress(d).value| < |d| && z.decompress(z.compress(d).value) == Some(d)
  }

  /** What registration settled: who packs, who can unpack, and the client's connection limit. */
  datatype Config = Config(
    lz4: Lz4,
    serverPacks: bool, clientUnpacks: bool,
    clientPacks: bool, serverUnpacks: bool,
    maxConns: int)

  ghost predicate Sound(c: Config) {
    && Lawful(c.lz4)
    && (c.serverPacks ==> c.clientUnpacks)
    && (c.clientPacks ==> c.serverUnpacks)
  }

  /** One direction of the link: every frame ever written, those not yet read, and whether writes fail now. */
  datatype Stream = Stream(log: seq<Frame>, queue: seq<Frame>, broken: bool)

  /** A write: appended whole, or the connection is broken from here on. */
  function Send(s: Stream, f: Frame, ok: bool): Stream
    requires ok ==> !s.broken
  {
    if ok then s.(log := s.log + [f], queue := s.queue + [f]) else s.(broken := true)
  }

  /** An external or local TCP connection as the relay sees it. */
  datatype Conn = Conn(open: bool, writable: bool, input: Bytes, output: Bytes)
  {
    predicate Usable() { open && writable }
  }

  const FRESH := Conn(true, true, [], [])
  const NOCONN := Conn(false, false, [], [])

  /** Goroutine positions; Unseen, Unstarted and LUnstarted stand for a goroutine that does not exist. */
  datatype AcceptPc = Unseen | Numbered | Inserted | Announced | SendFailed | Dropped | Returned
  datatype PipePc = Unstarted | Piping | Got(chunk: Bytes) | OweClose | Cleanup | Releasing | Exited
  datatype ServerReader =
    | SIdle | SPong
    | SClose(id: Id) | SRelease(id: Id) | SUdp(id: Id) | SUdpRelease(id: Id)
    | SData(id: Id, data: Bytes) | SWrite(id: Id, data: Bytes) | SPost(id: Id, key: Key, data: Bytes)
  datatype UdpReader =
    | UIdle | UAdmitted(key: Key, data: Bytes) | UInserted(id: Id, data: Bytes) | USend(id: Id, data: Bytes)
    | UStopped
  datatype Cleaner = CIdle | CHold | CClosed(key: Key) | CReleased(key: Key)
  datatype ClientReader =
    | LIdle | LDial(id: Id, udp: bool) | LDialFailed(id: Id)
    | LInserted(id: Id, udp: bool) | LCounted(id: Id, udp: bool)
    | LClose(id: Id) | LData(id: Id, data: Bytes) | LWrite(id: Id, data: Bytes)
  datatype LocalPc = LUnstarted | LPiping | LGot(chunk: Bytes) | LOweClose | LRemove | LShut | LExited
  datatype LocalPipe = LocalPipe(udp: bool, pc: LocalPc)

  datatype Server = Server(
    conns: set<Id>,               // keys of channelConns
    sessions: map<Key, Id>,       // udpSessions, by their channel id
    current: int,                 // connLimiter.current
    admitted: nat,                // accept goroutines past the limiter, without an id
    accepting: map<Id, AcceptPc>,
    pipes: map<Id, PipePc>,
    reader: ServerReader,
    udpReader: UdpReader,
    cleaner: Cleaner,
    udpIds: set<Id>)              // ids ever given to a UDP session

  datatype Client = Client(
    channels: set<Id>,
    udpChannels: set<Id>,
    infos: set<Id>,               // keys of connInfos
    active: int,                  // logutil's active-channel counter
    total: nat,                   // totalConns
    reader: ClientReader,
    pipes: map<Id, LocalPipe>)

  datatype World = World(
    next: Id,                     // nextCID, shared with every other client
    srv: Server, cli: Client,
    ext: map<Id, Conn>, loc: map<Id, Conn>,
    down: Stream, up: Stream,     // server to client, client to server
    posted: seq<(Key, Bytes)>)    // datagrams handed to WriteToUDP, and for which address
}
