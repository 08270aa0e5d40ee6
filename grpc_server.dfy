/**
  The receiving side of the gRPC backend (backend/ssgrpc/server.go): each
  call is authenticated, then its message is decoded by data type and handed
  to the hub over a channel. Sending on a channel is modelled as appending
  to a sequence; a nil channel is one not opened yet.
 */
module GrpcServer {
  import opened Wrappers
  import opened Text
  import opened GoData
  import opened Seqs
  import Hub
  import Token
  import opened GrpcBackend

  /** Incoming gRPC metadata: each key with its list of values. */
  type Metadata = map<string, seq<string>>

  const Authorization: string := "authorization"
  const Bearer: string := "Bearer"

  datatype CredError = ErrBadContext | ErrBadRPCCredentials | TokenError(e: Token.TokenError)

  datatype RpcError =
    | CredsRejected(c: CredError)
    | ErrNilBroadcastChannel
    | ErrNilRoomcastChannel
    | ErrBadDataType
    | JsonError

  /** `transport.Result`: the request's timestamp echoed, and whether the message was delivered. */
  datatype RpcResult = RpcResult(timestamp: nat, success: bool)

  /**
    `checkCreds`: an insecure server accepts everything. Otherwise the
    context must carry metadata (None: it does not) with exactly one
    `authorization` value of the form `Bearer <token>`, and the token must
    validate; a token error is returned as it is.
   */
  function CheckCreds(insecure: bool, sharedKey: Bytes, meta: Option<Metadata>, nowSecs: int, c: Token.Codecs): (r: Option<CredError>)
    ensures insecure ==> r.None?
    ensures !insecure && meta.None? ==> r == Some(ErrBadContext)
    ensures !insecure && meta.Some? && (Authorization !in meta.value || |meta.value[Authorization]| != 1) ==>
              r == Some(ErrBadRPCCredentials)
    ensures r.None? && !insecure ==>
              && meta.Some? && Authorization in meta.value && |meta.value[Authorization]| == 1
              && |Split(meta.value[Authorization][0], ' ')| == 2
              && Split(meta.value[Authorization][0], ' ')[0] == Bearer
              && Token.ValidateUserToken(Split(meta.value[Authorization][0], ' ')[1], sharedKey, nowSecs, c).err.None?
  {
    if insecure then None
    else if meta.None? then Some(ErrBadContext)
    else if Authorization in meta.value && |meta.value[Authorization]| == 1 then
      var t := Split(meta.value[Authorization][0], ' ');
      if |t| != 2 || t[0] != Bearer then Some(TokenError(Token.ErrBadBearerValue))
      else
        var v := Token.ValidateUserToken(t[1], sharedKey, nowSecs, c);
        if v.err.Some? then Some(TokenError(v.err.value)) else None
    else Some(ErrBadRPCCredentials)
  }

  /** The metadata a peer sends: one `authorization` value, `Bearer ` and the token. */
  function BearerMetadata(token: string): Metadata
  {
    map[Authorization := [Bearer + " " + token]]
  }

  /** A header whose token holds no space is split back into `Bearer` and that token. */
  lemma SplitBearer(token: string)
    requires ' ' !in token
    ensures Split(Bearer + " " + token, ' ') == [Bearer, token]
  {
    assert Bearer + " " + token == Bearer + [' '] + token;
    assert ' ' !in Bearer;
    SplitTwo(Bearer, ' ', token);
  }

  /**
    A bearer header carrying a space-free token is judged on the token alone:
    the server accepts it exactly when the token validates, and otherwise
    returns the token's own error.
   */
  lemma BearerMetadataChecked(sharedKey: Bytes, token: string, nowSecs: int, c: Token.Codecs)
    requires ' ' !in token
    ensures var v := Token.ValidateUserToken(token, sharedKey, nowSecs, c);
            CheckCreds(false, sharedKey, Some(BearerMetadata(token)), nowSecs, c) ==
              if v.err.None? then None else Some(TokenError(v.err.value))
  {
    SplitBearer(token);
  }

  /** A bearer header without the token, or with a space inside it, is a bad bearer value. */
  lemma SpacedTokenRejected(sharedKey: Bytes, token: string, nowSecs: int, c: Token.Codecs)
    requires ' ' in token
    ensures CheckCreds(false, sharedKey, Some(BearerMetadata(token)), nowSecs, c) == Some(TokenError(Token.ErrBadBearerValue))
  {
    assert Bearer + " " + token == Bearer + [' '] + token;
    assert ' ' !in Bearer;
    SplitFirst(Bearer, ' ', token);
    SplitCount(token, ' ');
    CountZero(token, ' ');
  }

  /** The data a received message carries, by type: parsed JSON, a string, raw bytes, or an error. */
  function DecodeData(data: Bytes, dataType: DataType, unmarshalData: Bytes -> Option<GoValue>): Result<GoValue, RpcError>
  {
    match dataType
    case JSON => if unmarshalData(data).Some? then Ok(unmarshalData(data).value) else Err(JsonError)
    case STR => Ok(GoString(data))
    case BIN => Ok(GoBytes(data))
    case Unrecognised(_) => Err(ErrBadDataType)
  }

  /** What a peer delivers for data `v` sent through `getDataType`. */
  function Delivered(v: GoValue, unmarshalData: Bytes -> Option<GoValue>): Result<GoValue, RpcError>
  {
    match v
    case GoString(_) => Ok(v)
    case GoBytes(_) => Ok(v)
    case GoOther(m) =>
      if m.None? then Ok(GoString([]))
      else if unmarshalData(m.value).Some? then Ok(unmarshalData(m.value).value)
      else Err(JsonError)
  }

  /**
    The data a broadcast or roomcast carries arrives as it was sent: strings
    and byte slices exactly, JSON values as the receiver's parser rebuilds
    them, and a value that could not be marshalled as the empty string.
   */
  lemma DataRoundTrip(v: GoValue, unmarshalData: Bytes -> Option<GoValue>)
    ensures var (data, dataType) := GetDataType(v);
            DecodeData(data, dataType, unmarshalData) == Delivered(v, unmarshalData)
  {
  }

  class PropagateServer {
    const sharedKey: Bytes
    const insecure: bool
    /** Whether `BroadcastFromBackend` / `RoomcastFromBackend` has set the channel. */
    var broadcastChanOpen: bool
    var roomcastChanOpen: bool
    /** The messages sent on each channel, oldest first. */
    var broadcasts: seq<Hub.BroadcastMsg>
    var roomcasts: seq<Hub.RoomMsg>

    /** The server `Init` registers: both channels still nil. */
    constructor (sharedKey: Bytes, insecure: bool)
      ensures this.sharedKey == sharedKey && this.insecure == insecure
      ensures !broadcastChanOpen && !roomcastChanOpen && broadcasts == [] && roomcasts == []
    {
      this.sharedKey := sharedKey;
      this.insecure := insecure;
      broadcastChanOpen, roomcastChanOpen := false, false;
      broadcasts, roomcasts := [], [];
    }

    /** `BroadcastFromBackend`: sets the broadcast channel. */
    method OpenBroadcastChannel()
      modifies this`broadcastChanOpen
      ensures broadcastChanOpen
    {
      broadcastChanOpen := true;
    }

    /** `RoomcastFromBackend`: sets the roomcast channel. */
    method OpenRoomcastChannel()
      modifies this`roomcastChanOpen
      ensures roomcastChanOpen
    {
      roomcastChanOpen := true;
    }

    /**
      `DoBroadcast`: echoes the timestamp; succeeds, having sent exactly one
      message, only when the credentials pass, the channel is open and the
      data decodes. Every failure sends nothing.
     */
    method DoBroadcast(meta: Option<Metadata>, b: Broadcast, nowSecs: int, c: Token.Codecs,
                       unmarshalData: Bytes -> Option<GoValue>)
      returns (tr: RpcResult, err: Option<RpcError>)
      modifies this`broadcasts
      ensures tr.timestamp == b.timestamp
      ensures tr.success <==> err.None?
      ensures var creds := CheckCreds(insecure, sharedKey, meta, nowSecs, c);
              var data := DecodeData(b.data, b.dataType, unmarshalData);
              && (creds.Some? ==> err == Some(CredsRejected(creds.value)))
              && (creds.None? && !broadcastChanOpen ==> err == Some(ErrNilBroadcastChannel))
              && (creds.None? && broadcastChanOpen && data.Err? ==> err == Some(data.error))
              && (err.None? <==> creds.None? && broadcastChanOpen && data.Ok?)
              && broadcasts == old(broadcasts) + (if err.None? then [Hub.BroadcastMsg(b.event, data.value)] else [])
    {
      tr := RpcResult(b.timestamp, false);
      var creds := CheckCreds(insecure, sharedKey, meta, nowSecs, c);
      if creds.Some? {
        return tr, Some(CredsRejected(creds.value));
      }
      if !broadcastChanOpen {
        return tr, Some(ErrNilBroadcastChannel);
      }
      var bCast := Hub.BroadcastMsg(b.event, GoBytes(b.data));
      match b.dataType {
        case JSON =>
          var d := unmarshalData(b.data);
          if d.None? {
            return tr, Some(JsonError);
          }
          bCast := bCast.(data := d.value);
          broadcasts := broadcasts + [bCast];
        case STR =>
          bCast := bCast.(data := GoString(b.data));
          broadcasts := broadcasts + [bCast];
        case BIN =>
          broadcasts := broadcasts + [bCast];
        case Unrecognised(_) =>
          return tr, Some(ErrBadDataType);
      }
      tr := tr.(success := true);
      err := None;
    }

    /** `DoRoomcast`: as `DoBroadcast`, for a room, on the roomcast channel. */
    method DoRoomcast(meta: Option<Metadata>, r: Roomcast, nowSecs: int, c: Token.Codecs,
                      unmarshalData: Bytes -> Option<GoValue>)
      returns (tr: RpcResult, err: Option<RpcError>)
      modifies this`roomcasts
      ensures tr.timestamp == r.timestamp
      ensures tr.success <==> err.None?
      ensures var creds := CheckCreds(insecure, sharedKey, meta, nowSecs, c);
              var data := DecodeData(r.data, r.dataType, unmarshalData);
              && (creds.Some? ==> err == Some(CredsRejected(creds.value)))
              && (creds.None? && !roomcastChanOpen ==> err == Some(ErrNilRoomcastChannel))
              && (creds.None? && roomcastChanOpen && data.Err? ==> err == Some(data.error))
              && (err.None? <==> creds.None? && roomcastChanOpen && data.Ok?)
              && roomcasts == old(roomcasts) + (if err.None? then [Hub.RoomMsg(r.room, r.event, data.value)] else [])
    {
      tr := RpcResult(r.timestamp, false);
      var creds := CheckCreds(insecure, sharedKey, meta, nowSecs, c);
      if creds.Some? {
        return tr, Some(CredsRejected(creds.value));
      }
      if !roomcastChanOpen {
        return tr, Some(ErrNilRoomcastChannel);
      }
      var rCast := Hub.RoomMsg(r.room, r.event, GoBytes(r.data));
      match r.dataType {
        case JSON =>
          var d := unmarshalData(r.data);
          if d.None? {
            return tr, Some(JsonError);
          }
          rCast := rCast.(data := d.value);
          roomcasts := roomcasts + [rCast];
        case STR =>
          rCast := rCast.(data := GoString(r.data));
          roomcasts := roomcasts + [rCast];
        case BIN =>
          roomcasts := roomcasts + [rCast];
        case Unrecognised(_) =>
          return tr, Some(ErrBadDataType);
      }
      tr := tr.(success := true);
      err := None;
    }
  }

  /**
    End to end: a broadcast sent by `BroadcastToBackend` to an open, insecure
    peer is delivered there with its event name and its data as `Delivered`
    describes, and the caller sees its own timestamp with success.
   */
  method BroadcastArrives(b: Hub.BroadcastMsg, timestamp: nat, nowSecs: int, c: Token.Codecs,
                          unmarshalData: Bytes -> Option<GoValue>)
      returns (tr: RpcResult, delivered: seq<Hub.BroadcastMsg>)
    requires Delivered(b.data, unmarshalData).Ok?
    ensures tr == RpcResult(timestamp, true)
    ensures delivered == [Hub.BroadcastMsg(b.eventName, Delivered(b.data, unmarshalData).value)]
  {
    var peer := new PropagateServer([], true);
    peer.OpenBroadcastChannel();
    DataRoundTrip(b.data, unmarshalData);
    var err;
    tr, err := peer.DoBroadcast(None, BroadcastRequest(b, timestamp), nowSecs, c, unmarshalData);
    delivered := peer.broadcasts;
  }

  /**
    End to end for rooms: a roomcast sent by `RoomcastToBackend` to an open,
    insecure peer is delivered there for the same room and event name, with
    its data as `Delivered` describes.
   */
  method RoomcastArrives(r: Hub.RoomMsg, timestamp: nat, nowSecs: int, c: Token.Codecs,
                         unmarshalData: Bytes -> Option<GoValue>)
      returns (tr: RpcResult, delivered: seq<Hub.RoomMsg>)
    requires Delivered(r.data, unmarshalData).Ok?
    ensures tr == RpcResult(timestamp, true)
    ensures delivered == [Hub.RoomMsg(r.roomName, r.eventName, Delivered(r.data, unmarshalData).value)]
  {
    var peer := new PropagateServer([], true);
    peer.OpenRoomcastChannel();
    DataRoundTrip(r.data, unmarshalData);
    var err;
    tr, err := peer.DoRoomcast(None, RoomcastRequest(r, timestamp), nowSecs, c, unmarshalData);
    delivered := peer.roomcasts;
  }
}
