/**
  The gRPC multihome backend (backend/ssgrpc/ssgrpc.go): how a peer string
  names a host and a TLS server name, the table of peer connections, and the
  messages sent to every peer. The generated `transport` package is not part
  of this model; its messages are declared here as plain records.
 */
module GrpcBackend {
  import opened Wrappers
  import opened Text
  import opened GoData
  import opened Seqs
  import Hub

  /** `transport.DataType`: the three named values, or any other code received on the wire. */
  datatype DataType = STR | BIN | JSON | Unrecognised(code: int)

  datatype Broadcast = Broadcast(timestamp: nat, event: Bytes, data: Bytes, dataType: DataType)

  datatype Roomcast = Roomcast(timestamp: nat, room: string, event: Bytes, data: Bytes, dataType: DataType)

  /** `getDataType`: the bytes to carry and their tag. A value that cannot be marshalled is sent as an empty string. */
  function GetDataType(v: GoValue): (r: (Bytes, DataType))
    ensures r.1 == STR || r.1 == BIN || r.1 == JSON
    ensures r.1 == BIN <==> v.GoBytes?
  {
    match v
    case GoString(s) => (s, STR)
    case GoBytes(b) => (b, BIN)
    case GoOther(m) => if m.Some? then (m.value, JSON) else ([], STR)
  }

  /** The request `BroadcastToBackend` sends to every peer, stamped `timestamp` (Unix nanoseconds). */
  function BroadcastRequest(b: Hub.BroadcastMsg, timestamp: nat): (r: Broadcast)
    ensures r.timestamp == timestamp && r.event == b.eventName
    ensures r.dataType == BIN <==> b.data.GoBytes?
    ensures (b.data.GoBytes? ==> r.data == b.data.b) && (b.data.GoString? ==> r.data == b.data.s)
  {
    var (data, dataType) := GetDataType(b.data);
    Broadcast(timestamp, b.eventName, data, dataType)
  }

  /** The request `RoomcastToBackend` sends to every peer, stamped `timestamp` (Unix nanoseconds). */
  function RoomcastRequest(r: Hub.RoomMsg, timestamp: nat): (q: Roomcast)
    ensures q.timestamp == timestamp && q.room == r.roomName && q.event == r.eventName
    ensures q.dataType == BIN <==> r.data.GoBytes?
    ensures (r.data.GoBytes? ==> q.data == r.data.b) && (r.data.GoString? ==> q.data == r.data.s)
  {
    var (data, dataType) := GetDataType(r.data);
    Roomcast(timestamp, r.roomName, r.eventName, data, dataType)
  }

  /** A peer string resolved into the name its TLS certificate must carry and the address to dial. */
  datatype Peer = Peer(cn: string, host: string)

  /**
    The split in `constructClient`: `cn@host` when the string holds exactly one
    `@`; otherwise the text before the first `@` is the host and its part
    before the first `:` is the name.
   */
  function ParsePeer(peer: string): (p: Peer)
    ensures '@' !in p.host && '@' !in p.cn
  {
    var hcn := Split(peer, '@');
    if |hcn| == 2 then Peer(hcn[0], hcn[1])
    else
      var cn := Split(hcn[0], ':')[0];
      assert forall i :: 0 <= i < |cn| ==> cn[i] == hcn[0][i];
      Peer(cn, hcn[0])
  }

  /** `cn@host` with no further `@` resolves to exactly that name and host. */
  lemma ParsePeerWithName(cn: string, host: string)
    requires '@' !in cn && '@' !in host
    ensures ParsePeer(cn + "@" + host) == Peer(cn, host)
  {
    assert cn + "@" + host == cn + ['@'] + host;
    SplitTwo(cn, '@', host);
  }

  /** Without `@` the whole string is dialled and the name is its part before the first `:`. */
  lemma ParsePeerWithoutName(peer: string)
    requires '@' !in peer
    ensures ParsePeer(peer) == Peer(peer[..IndexOf(peer, ':')], peer)
  {
    SplitNone(peer, '@');
  }

  /**
    With two or more `@` the string falls into the branch for a bare host:
    the host is only the text before the first `@`.
   */
  lemma ParsePeerWithManyAts(peer: string)
    requires Count(peer, '@') >= 2
    ensures var host := peer[..IndexOf(peer, '@')];
            ParsePeer(peer) == Peer(host[..IndexOf(host, ':')], host)
  {
    SplitCount(peer, '@');
  }

  /** A dialled peer: the connection handle and the credentials it was dialled with. */
  datatype PeerClient = PeerClient(conn: nat, tlsServerName: Option<string>, perRpcCreds: bool)

  /** The dial options `constructClient` chooses: none when insecure, else TLS checked against `cn` plus bearer tokens. */
  function DialCredentials(insecure: bool, cn: string, conn: nat): (c: PeerClient)
    ensures c.conn == conn
    ensures insecure <==> c.tlsServerName.None?
    ensures c.perRpcCreds <==> !insecure
  {
    if insecure then PeerClient(conn, None, false) else PeerClient(conn, Some(cn), true)
  }

  class Backend {
    const peerList: seq<string>
    var peers: map<string, PeerClient>
    const keyFile: string
    const certFile: string
    const sharedKey: Bytes
    const serverHostPort: string
    const insecure: bool

    /** `NewBackend`: TLS and signed tokens, no peer connected yet. */
    constructor NewBackend(tlsKeyFile: string, tlsCertFile: string, grpcHostPort: string, sharedKey: Bytes, peerList: seq<string>)
      ensures !insecure && peers == map[]
      ensures this.peerList == peerList && keyFile == tlsKeyFile && certFile == tlsCertFile
      ensures this.sharedKey == sharedKey && serverHostPort == grpcHostPort
    {
      this.peerList := peerList;
      peers := map[];
      keyFile := tlsKeyFile;
      certFile := tlsCertFile;
      this.sharedKey := sharedKey;
      serverHostPort := grpcHostPort;
      insecure := false;
    }

    /** `NewInsecureBackend`: no encryption, no authentication, no key material. */
    constructor NewInsecureBackend(grpcHostPort: string, peerList: seq<string>)
      ensures insecure && peers == map[]
      ensures this.peerList == peerList && serverHostPort == grpcHostPort
      ensures keyFile == "" && certFile == "" && sharedKey == []
    {
      this.peerList := peerList;
      peers := map[];
      keyFile := "";
      certFile := "";
      sharedKey := [];
      serverHostPort := grpcHostPort;
      insecure := true;
    }

    /**
      `constructClient`: resolves the peer string and records the connection
      under its host, replacing any earlier one. `dialled` is the connection
      the dial yields; None (TLS files unreadable or the dial failing) ends
      the process, reported as `exited`, with the table untouched.
     */
    method ConstructClient(peer: string, dialled: Option<nat>) returns (exited: bool)
      modifies this`peers
      ensures exited <==> dialled.None?
      ensures exited ==> peers == old(peers)
      ensures !exited ==>
                var p := ParsePeer(peer);
                && peers == old(peers)[p.host := DialCredentials(insecure, p.cn, dialled.value)]
    {
      var hcn := Split(peer, '@');
      var host, cn;
      if |hcn| == 2 {
        cn := hcn[0];
        host := hcn[1];
      } else {
        var hp := Split(hcn[0], ':');
        cn := hp[0];
        host := hcn[0];
      }
      if dialled.None? {
        return true;
      }
      var client;
      if insecure {
        client := PeerClient(dialled.value, None, false);
      } else {
        client := PeerClient(dialled.value, Some(cn), true);
      }
      peers := peers[host := client];
      return false;
    }
  }
}
