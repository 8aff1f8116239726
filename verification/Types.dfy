/**
 The data behind the netstack's single mutex, as values: session tables,
 shared UDP sockets, interface slots, the buffer budget, the receive queues and
 the application-side objects that hold raw handles into all of it.
 */
module Types {

  datatype Option<+T> = None | Some(value: T)

  newtype byte = x: int | 0 <= x < 256
  type Bytes = seq<byte>

  type InterfaceId = nat
  type Handle = nat
  type QueueId = nat
  type StreamId = nat
  type Instant = int

  datatype Endpoint = Endpoint(addr: nat, port: nat)

  datatype Proto = Tcp | Udp

  datatype SessionKey = SessionKey(iface: InterfaceId, proto: Proto, src: Endpoint, dst: Endpoint)

  /** Key of a shared UDP socket: one per interface and destination endpoint. */
  datatype DstKey = DstKey(iface: InterfaceId, ep: Endpoint)

  /** Connection states of section 3.3.2 of RFC 9293. */
  datatype SockState =
    | Closed | Listen | SynSent | SynReceived | Established | FinWait1
    | FinWait2 | CloseWait | Closing | LastAck | TimeWait

  /** One element of a UDP receive buffer: a datagram, or one `recv` reports as truncated. */
  datatype Rx = Datagram(src: Endpoint, data: Bytes) | Truncated

  datatype Socket =
    | TcpSock(state: SockState, local: Endpoint)
    | UdpSock(bound: Endpoint, rx: seq<Rx>, tx: seq<(Endpoint, Bytes)>)

  /** What the pre-pass sees of an ingress packet once it is parsed. */
  datatype Packet =
    | Opaque
    | TcpPacket(src: Endpoint, dst: Endpoint, syn: bool)
    | UdpPacket(src: Endpoint, dst: Endpoint)

  /** Builder configuration; `ifaces` lists the interface ids in the order they were added. */
  datatype Config = Config(
    ifaces: seq<InterfaceId>,
    mtu: nat,
    tcpBufferSize: nat,
    tcpMaxConnections: nat,
    tcpPoolSize: nat,
    udpTimeout: nat,
    udpMaxSessions: nat,
    udpBufferPackets: nat,
    udpBufferBytes: nat,
    maxBufferBytes: Option<nat>)

  datatype Slot = Slot(
    id: InterfaceId,
    ingress: seq<Packet>,
    sockets: map<Handle, Socket>,
    pool: seq<Socket>,
    poolMax: nat,
    mtu: nat,
    bufferSize: nat)

  datatype TcpState = Pending | Established | Closed

  datatype TcpEntry = TcpEntry(handle: Handle, state: TcpState, orphaned: bool)

  datatype UdpEntry = UdpEntry(socket: Handle, queue: QueueId, lastActivity: Instant)

  datatype SharedSocket = SharedSocket(handle: Handle, count: nat)

  datatype Queue = Queue(inner: seq<Bytes>, closed: bool)

  /** A live `WayTcpStream`. */
  datatype Stream = Stream(key: SessionKey, handle: Handle)

  /** A live `WayUdpSession`; each is created with a queue of its own, whose id indexes it. */
  datatype Session = Session(key: SessionKey, socket: Handle)

  /**
   Event counts over a run. `accepted` and `retains` also number the next stream and the next queue; no
   operation reads the others.
   */
  datatype History = History(
    created: nat,      // TCP entries inserted
    accepted: nat,       // TCP streams handed out
    dropped: nat,        // TCP streams dropped
    reaped: nat,         // TCP entries removed
    retains: nat,        // UDP sessions created, each retaining its shared socket
    releases: nat,       // UDP entries removed, each releasing its shared socket
    failedBinds: nat,    // fresh UDP sockets reserved but never bound
    peak: map<InterfaceId, nat>)  // most TCP entries ever held per interface

  datatype State = State(
    cfg: Config,
    slots: map<InterfaceId, Slot>,
    tcp: map<SessionKey, TcpEntry>,
    udp: map<SessionKey, UdpEntry>,
    dsts: map<DstKey, SharedSocket>,
    bytes: nat,
    queues: map<QueueId, Queue>,
    streams: map<StreamId, Stream>,
    sessions: map<QueueId, Session>,
    hist: History)

  /**
   Everything one poll cycle leaves to code outside the netstack: the clock, the
   outcome of each listen and bind (indexed by interface and packet position),
   the handle the socket set picks for a new socket, the slots as the engine's
   poll leaves them, and the order in which each hash map is enumerated.
   */
  datatype Choices = Choices(
    now: Instant,
    opens: (InterfaceId, nat) -> bool,
    pick: (InterfaceId, set<Handle>) -> Handle,
    polled: seq<Slot>,
    tcpOrder: seq<SessionKey>,
    dstOrder: seq<DstKey>,
    udpOrder: seq<SessionKey>)

  function Max(a: int, b: int): int {
    if a < b then b else a
  }

  ghost predicate NoDup<T>(xs: seq<T>) {
    forall i, j :: 0 <= i < j < |xs| ==> xs[i] != xs[j]
  }

  /** `xs` lists every element of `keys` exactly once. */
  ghost predicate Enumerates<T(!new)>(xs: seq<T>, keys: set<T>) {
    NoDup(xs) && forall x :: x in xs <==> x in keys
  }

  function DstOf(k: SessionKey): DstKey {
    DstKey(k.iface, k.dst)
  }

  /** The slot vector read as a map; ids are unique, so lookup by id is a function. */
  ghost function SlotMap(slots: seq<Slot>): map<InterfaceId, Slot> {
    if slots == [] then map[]
    else SlotMap(slots[..|slots| - 1])[slots[|slots| - 1].id := slots[|slots| - 1]]
  }

  ghost predicate HasIds(slots: seq<Slot>, ids: seq<InterfaceId>) {
    |slots| == |ids| && forall i :: 0 <= i < |ids| ==> slots[i].id == ids[i]
  }

  lemma {:induction false} SlotMapLookup(slots: seq<Slot>, ids: seq<InterfaceId>)
    requires HasIds(slots, ids) && NoDup(ids)
    ensures forall id :: id in SlotMap(slots) <==> id in ids
    ensures forall i :: 0 <= i < |ids| ==> ids[i] in SlotMap(slots) && SlotMap(slots)[ids[i]] == slots[i]
  {
    if slots != [] {
      var n := |slots| - 1;
      SlotMapLookup(slots[..n], ids[..n]);
      assert ids == ids[..n] + [ids[n]];
      assert forall i :: 0 <= i < n ==> ids[..n][i] == ids[i] && ids[i] != ids[n];
    }
  }
}
