/**
  The message the redis multihome backend publishes between server instances
  (backend/ssredis/transmission.go): the event's data is tagged with its
  kind and carried base64-encoded in a JSON object.

  `encoding/json` is not part of this model: marshalling the record is the
  parameter `marshal`, `json.Unmarshal` into the record is `unmarshal` (it
  takes the fields the receiver holds and yields the fields after the call,
  None on error), and unmarshalling a JSON payload into `interface{}` is
  `unmarshalData`.
 */
module RedisTransmission {
  import opened Wrappers
  import opened Text
  import opened GoData
  import Base64

  /** The data type tags; 0 marks a missing or bad tag. */
  const TtErr: int := 0
  const TtStr: int := 1
  const TtBin: int := 2
  const TtJSON: int := 3

  datatype TransmissionError = ErrBadDataType | ErrNoEventName | JsonError | Base64Error

  /** The JSON-visible fields: `d`, `e`, `r` (omitted when empty), `p` and `s`. */
  datatype Fields = Fields(dataType: int, eventName: string, roomName: string, payload: string, serverName: string)

  const ZeroFields: Fields := Fields(0, "", "", "", "")

  /** `getDataType`: the bytes to carry and their tag. A value that cannot be marshalled is sent as an empty string. */
  function GetDataType(v: GoValue): (r: (Bytes, int))
    ensures r.1 == TtStr || r.1 == TtBin || r.1 == TtJSON
    ensures r.1 == TtBin <==> v.GoBytes?
  {
    match v
    case GoString(s) => (s, TtStr)
    case GoBytes(b) => (b, TtBin)
    case GoOther(m) => if m.Some? then (m.value, TtJSON) else ([], TtStr)
  }

  /** The fields `toJSON` marshals: the payload is the base64 of the classified bytes, tagged with their kind. */
  function Tagged(f: Fields, v: GoValue): Fields
  {
    var (bytes, dataType) := GetDataType(v);
    f.(payload := Base64.Encode(bytes), dataType := dataType)
  }

  /**
    The checks `fromJSON` makes once the record is unmarshalled, in order:
    the tag, the event name, the base64 payload, then the data by tag. Ok(None)
    means an unknown non-zero tag: accepted, with the data left unset.
   */
  function DecodeData(f: Fields, unmarshalData: Bytes -> Option<GoValue>): Result<Option<GoValue>, TransmissionError>
  {
    if f.dataType == TtErr then Err(ErrBadDataType)
    else if f.eventName == "" then Err(ErrNoEventName)
    else match Base64.Decode(f.payload)
      case None => Err(Base64Error)
      case Some(d) =>
        if f.dataType == TtStr then Ok(Some(GoString(d)))
        else if f.dataType == TtBin then Ok(Some(GoBytes(d)))
        else if f.dataType == TtJSON then
          match unmarshalData(d)
          case None => Err(JsonError)
          case Some(v) => Ok(Some(v))
        else Ok(None)
  }

  /** The value the receiving side ends up with for data `v` sent by `toJSON`. */
  function Received(v: GoValue, unmarshalData: Bytes -> Option<GoValue>): Result<Option<GoValue>, TransmissionError>
  {
    match v
    case GoString(_) => Ok(Some(v))
    case GoBytes(_) => Ok(Some(v))
    case GoOther(m) =>
      if m.None? then Ok(Some(GoString([])))
      else if unmarshalData(m.value).Some? then Ok(Some(unmarshalData(m.value).value))
      else Err(JsonError)
  }

  /**
    `toJSON` then `fromJSON` on a fresh record: the names come back unchanged,
    strings and byte slices exactly, JSON values as `unmarshalData` rebuilds
    them, and a value that could not be marshalled as the empty string.
    Requires that `unmarshal` inverts `marshal` on this record and that the
    event name is not empty.
   */
  lemma RoundTrip(f: Fields, v: GoValue, marshal: Fields -> Bytes, unmarshal: (Fields, Bytes) -> Option<Fields>,
                  unmarshalData: Bytes -> Option<GoValue>)
    requires f.eventName != ""
    requires unmarshal(ZeroFields, marshal(Tagged(f, v))) == Some(Tagged(f, v))
    ensures var g := unmarshal(ZeroFields, marshal(Tagged(f, v))).value;
            && g.eventName == f.eventName && g.roomName == f.roomName && g.serverName == f.serverName
            && DecodeData(g, unmarshalData) == Received(v, unmarshalData)
  {
    var (bytes, dataType) := GetDataType(v);
    Base64.DecodeEncode(bytes);
  }

  /** The tag is checked before the event name: a record lacking both is a bad data type. */
  lemma TagCheckedFirst(f: Fields, unmarshalData: Bytes -> Option<GoValue>)
    requires f.dataType == TtErr && f.eventName == ""
    ensures DecodeData(f, unmarshalData) == Err(ErrBadDataType)
  {
  }

  /** Any other non-zero tag is accepted without setting the data. */
  lemma UnknownTagAccepted(f: Fields, unmarshalData: Bytes -> Option<GoValue>)
    requires f.dataType !in {TtErr, TtStr, TtBin, TtJSON} && f.eventName != "" && Base64.Decode(f.payload).Some?
    ensures DecodeData(f, unmarshalData) == Ok(None)
  {
  }

  class Transmission {
    var dataType: int
    var eventName: string
    var roomName: string
    var payload: string
    var serverName: string
    /** The `Data` field, excluded from the JSON. */
    var data: GoValue

    function Visible(): Fields
      reads this
    {
      Fields(dataType, eventName, roomName, payload, serverName)
    }

    /** A record as `var t transmission` declares it: zero fields, nil data. */
    constructor ()
      ensures Visible() == ZeroFields && data == Nil
    {
      dataType, eventName, roomName, payload, serverName := 0, "", "", "", "";
      data := Nil;
    }

    /** `toJSON`: tags the data and stores its base64 in the payload, then marshals the record. */
    method ToJSON(marshal: Fields -> Bytes) returns (json: Bytes)
      modifies this`payload, this`dataType
      ensures Visible() == Tagged(old(Visible()), data)
      ensures json == marshal(Visible())
    {
      var (bytes, dType) := GetDataType(data);
      payload := Base64.Encode(bytes);
      dataType := dType;
      json := marshal(Fields(dataType, eventName, roomName, payload, serverName));
    }

    /**
      `fromJSON`: unmarshals into the record, then checks it and sets the data.
      Returns None on success, the error otherwise.
     */
    method FromJSON(json: Bytes, unmarshal: (Fields, Bytes) -> Option<Fields>, unmarshalData: Bytes -> Option<GoValue>)
      returns (err: Option<TransmissionError>)
      modifies this
      ensures unmarshal(old(Visible()), json).None? ==>
                err == Some(JsonError) && Visible() == old(Visible()) && data == old(data)
      ensures unmarshal(old(Visible()), json).Some? ==>
                && Visible() == unmarshal(old(Visible()), json).value
                && match DecodeData(Visible(), unmarshalData)
                   case Err(e) => err == Some(e) && data == old(data)
                   case Ok(v) => err == None && data == (if v.Some? then v.value else old(data))
    {
      var parsed := unmarshal(Fields(dataType, eventName, roomName, payload, serverName), json);
      if parsed.None? {
        return Some(JsonError);
      }
      var f := parsed.value;
      dataType, eventName, roomName, payload, serverName := f.dataType, f.eventName, f.roomName, f.payload, f.serverName;
      if dataType == TtErr {
        return Some(ErrBadDataType);
      }
      if eventName == "" {
        return Some(ErrNoEventName);
      }
      var d := Base64.Decode(payload);
      if d.None? {
        return Some(Base64Error);
      }
      if dataType == TtStr {
        data := GoString(d.value);
      } else if dataType == TtBin {
        data := GoBytes(d.value);
      } else if dataType == TtJSON {
        var v := unmarshalData(d.value);
        if v.None? {
          return Some(JsonError);
        }
        data := v.value;
      }
      return None;
    }
  }
}
