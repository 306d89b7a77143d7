/**
  The TCNet message codec: the 24-byte management header that prefixes every message and
  the bodies of the OptIn, OptOut, Status, Request, Data and Metadata messages, each at
  fixed little-endian offsets. Reading is a function of the received bytes; writing
  updates a buffer in place, and the `...Into` functions say what the buffer holds after.
*/
module Network {
  import opened Wrappers
  import opened Wire

  // ---------------------------------------------------------------------------
  // Enumerations

  /** `TCNetMessageType`: the code in byte 7 of the header. */
  datatype MessageType =
    | OptIn | OptOut | Status | TimeSync | Error | Request | ApplicationData
    | Control | Text | Keyboard | Data | File | Time
  {
    function Code(): byte
    {
      match this
      case OptIn => 2
      case OptOut => 3
      case Status => 5
      case TimeSync => 10
      case Error => 13
      case Request => 20
      case ApplicationData => 30
      case Control => 101
      case Text => 128
      case Keyboard => 132
      case Data => 200
      case File => 204
      case Time => 254
    }
  }

  /** The message type a code stands for, if any. */
  function MessageTypeOf(code: int): (r: Option<MessageType>)
    ensures r.Some? ==> r.value.Code() == code
    ensures r.None? ==> forall t: MessageType :: t.Code() != code
  {
    match code
    case 2 => Some(OptIn)
    case 3 => Some(OptOut)
    case 5 => Some(Status)
    case 10 => Some(TimeSync)
    case 13 => Some(Error)
    case 20 => Some(Request)
    case 30 => Some(ApplicationData)
    case 101 => Some(Control)
    case 128 => Some(Text)
    case 132 => Some(Keyboard)
    case 200 => Some(Data)
    case 204 => Some(File)
    case 254 => Some(Time)
    case _ => None
  }

  /** `TCNetDataPacketType`: the sub-type in byte 24 of Request and Data messages. */
  datatype DataPacketType =
    | MetricsData | MetaData | BeatGridData | CUEData | SmallWaveFormData | BigWaveFormData | MixerData
  {
    function Code(): byte
    {
      match this
      case MetricsData => 2
      case MetaData => 4
      case BeatGridData => 8
      case CUEData => 12
      case SmallWaveFormData => 16
      case BigWaveFormData => 32
      case MixerData => 150
    }
  }

  function DataPacketTypeOf(code: int): (r: Option<DataPacketType>)
    ensures r.Some? ==> r.value.Code() == code
    ensures r.None? ==> forall t: DataPacketType :: t.Code() != code
  {
    match code
    case 2 => Some(MetricsData)
    case 4 => Some(MetaData)
    case 8 => Some(BeatGridData)
    case 12 => Some(CUEData)
    case 16 => Some(SmallWaveFormData)
    case 32 => Some(BigWaveFormData)
    case 150 => Some(MixerData)
    case _ => None
  }

  /** `NodeType`: the bits of the node-type byte of the header. */
  datatype NodeType = Auto | Master | Slave | Repeater
  {
    function Code(): byte
    {
      match this
      case Auto => 1
      case Master => 2
      case Slave => 4
      case Repeater => 8
    }
  }

  function NodeTypeOf(code: int): (r: Option<NodeType>)
    ensures r.Some? ==> r.value.Code() == code
    ensures r.None? ==> forall t: NodeType :: t.Code() != code
  {
    match code
    case 1 => Some(Auto)
    case 2 => Some(Master)
    case 4 => Some(Slave)
    case 8 => Some(Repeater)
    case _ => None
  }

  /** `TCNetLayerStatus`: the playback state of one layer in a Status message. */
  datatype LayerStatus =
    | Idle | Playing | Looping | Paused | Stopped | CueDown | PlatterDown | FastForward | FastReverse | Hold
  {
    function Code(): byte
    {
      match this
      case Idle => 0
      case Playing => 3
      case Looping => 4
      case Paused => 5
      case Stopped => 6
      case CueDown => 7
      case PlatterDown => 8
      case FastForward => 9
      case FastReverse => 10
      case Hold => 11
    }
  }

  function LayerStatusOf(code: int): (r: Option<LayerStatus>)
    ensures r.Some? ==> r.value.Code() == code
    ensures r.None? ==> forall t: LayerStatus :: t.Code() != code
  {
    match code
    case 0 => Some(Idle)
    case 3 => Some(Playing)
    case 4 => Some(Looping)
    case 5 => Some(Paused)
    case 6 => Some(Stopped)
    case 7 => Some(CueDown)
    case 8 => Some(PlatterDown)
    case 9 => Some(FastForward)
    case 10 => Some(FastReverse)
    case 11 => Some(Hold)
    case _ => None
  }

  // ---------------------------------------------------------------------------
  // Layout constants

  const MajorVersion: byte := 3
  const MagicHeader: string := "TCN"
  const HeaderLength: nat := 24
  const NodeNameWidth: nat := 8
  /** Width of the vendor and application names of an OptIn message. */
  const AppTextWidth: nat := 16
  /** Width of each layer name of a Status message. */
  const LayerNameWidth: nat := 16
  /** Number of layers every Status message describes. */
  const Layers: nat := 8

  const OptInLength: nat := 68
  const OptOutLength: nat := 28
  const StatusLength: nat := 300
  const RequestLength: nat := 26
  const DataLength: nat := 26
  const MetadataLength: nat := 548
  /** Bytes a Metadata read needs: the track id, the last field it reads, ends at 547. */
  const MetadataExtent: nat := 547

  // ---------------------------------------------------------------------------
  // Records

  datatype Header = Header(
    nodeId: u16,
    minorVersion: byte,
    messageType: byte,
    nodeName: string,
    sequence: byte,
    nodeType: byte,
    nodeOptions: u16,
    timestamp: u32)

  datatype OptInBody = OptInBody(
    nodeCount: u16,
    nodeListenerPort: u16,
    uptime: u16,
    vendorName: string,
    appName: string,
    majorVersion: byte,
    minorVersion: byte,
    bugVersion: byte)

  datatype OptOutBody = OptOutBody(nodeCount: u16, nodeListenerPort: u16)

  datatype StatusBody = StatusBody(
    nodeCount: u16,
    nodeListenerPort: u16,
    layerSource: seq<byte>,
    layerStatus: seq<byte>,
    trackID: seq<u32>,
    smpteMode: byte,
    autoMasterMode: byte,
    layerName: seq<string>)

  datatype TrackMetadata = TrackMetadata(
    dataType: byte,
    layer: byte,
    trackArtist: string,
    trackTitle: string,
    trackKey: u16,
    trackID: u32)

  /**
    The body of a message, one variant per packet class. Request and Data carry the numbers
    a caller passed, which need not be bytes; the unmodelled variant stands for a class of
    the registry whose layout is not part of this model.
  */
  datatype Body =
    | OptInPacket(optIn: OptInBody)
    | OptOutPacket(optOut: OptOutBody)
    | StatusPacket(status: StatusBody)
    | RequestPacket(dataType: nat, layer: nat)
    | DataPacket(dataType: nat, layer: nat)
    | MetadataPacket(meta: TrackMetadata)
    | UnmodelledPacket(code: byte, declaredLength: int)

  /** A Data message decoded by its sub-type: a Metadata response, or one whose layout is not modelled. */
  datatype DataBody =
    | MetadataResponse(meta: TrackMetadata)
    | UnmodelledResponse(dataType: byte, layer: byte)

  /** Errors thrown while reading: a read past the end of the buffer (Node's RangeError). */
  datatype DecodeError = ReadOutOfRange

  /** Errors thrown while writing. */
  datatype WriteError =
    | ValueOutOfRange   // `writeUInt8` given a value outside 0..255
    | OffsetOutOfRange  // `writeUInt8` given an offset past the end of the buffer
    | NotSupported      // `write()` of a receive-only message

  /**
    `length()` of each packet class; -1 means any length. Every modelled class covers the
    24-byte header, and the Metadata class covers every byte its read uses.
  */
  function Length(body: Body): (r: int)
    ensures !body.UnmodelledPacket? ==> r >= HeaderLength
    ensures body.MetadataPacket? ==> r >= MetadataExtent
  {
    match body
    case OptInPacket(_) => OptInLength
    case OptOutPacket(_) => OptOutLength
    case StatusPacket(_) => StatusLength
    case RequestPacket(_, _) => RequestLength
    case DataPacket(_, _) => DataLength
    case MetadataPacket(_) => MetadataLength
    case UnmodelledPacket(_, n) => n
  }

  /**
    `type()` of each packet class; the Metadata class inherits Data's. Every modelled class
    names a message type, and only Data and Metadata name the Data type.
  */
  function TypeCode(body: Body): (r: byte)
    ensures !body.UnmodelledPacket? ==> MessageTypeOf(r).Some?
    ensures !body.UnmodelledPacket? ==> (r == MessageType.Data.Code() <==> body.DataPacket? || body.MetadataPacket?)
  {
    match body
    case OptInPacket(_) => MessageType.OptIn.Code()
    case OptOutPacket(_) => MessageType.OptOut.Code()
    case StatusPacket(_) => MessageType.Status.Code()
    case RequestPacket(_, _) => MessageType.Request.Code()
    case DataPacket(_, _) => MessageType.Data.Code()
    case MetadataPacket(_) => MessageType.Data.Code()
    case UnmodelledPacket(c, _) => c
  }

  // ---------------------------------------------------------------------------
  // Management header

  /** `TCNetManagementHeader.read`. Too short a buffer makes a read throw. */
  function DecodeHeader(b: seq<byte>): (r: Result<Header, DecodeError>)
    ensures r.Failure? <==> |b| < HeaderLength
  {
    if |b| < HeaderLength then Failure(ReadOutOfRange)
    else Success(Header(
      U16At(b, 0), b[3], b[7], TextField(b, 8, 16), b[16], b[17], U16At(b, 18), U32At(b, 20)))
  }

  /**
    What the two header checks of `read` test. They only log when they fail, so this is
    a property a buffer may lack, not a reason `DecodeHeader` fails.
  */
  predicate HeaderValid(b: seq<byte>): (r: bool)
    ensures r <==> (|b| >= HeaderLength && b[2] == MajorVersion &&
                    b[4] % 0x80 == 0x54 && b[5] % 0x80 == 0x43 && b[6] % 0x80 == 0x4E)
  {
    |b| >= HeaderLength && b[2] == MajorVersion && AsciiDecode(b[4..7]) == MagicHeader
  }

  /**
    The buffer after `TCNetManagementHeader.write`: the same length, and every byte past
    both the header and the written name stays as it was.
  */
  function HeaderInto(b: seq<byte>, h: Header): (r: seq<byte>)
    requires |b| >= HeaderLength
    ensures |r| == |b|
    ensures forall i :: HeaderLength <= i < |b| && 8 + |h.nodeName| <= i ==> r[i] == b[i]
  {
    var b1 := SetU16LE(b, 0, h.nodeId);
    var b2 := SetU8(b1, 2, MajorVersion);
    var b3 := SetU8(b2, 3, h.minorVersion);
    var b4 := SetText(b3, 4, MagicHeader);
    var b5 := SetU8(b4, 7, h.messageType);
    var b6 := SetText(b5, 8, PadEnd(h.nodeName, NodeNameWidth));
    var b7 := SetU8(b6, 16, h.sequence);
    var b8 := SetU8(b7, 17, h.nodeType);
    var b9 := SetU16LE(b8, 18, h.nodeOptions);
    SetU32LE(b9, 20, h.timestamp)
  }

  /** `TCNetManagementHeader.write` on a buffer. */
  method WriteHeader(buf: array<byte>, h: Header)
    requires buf.Length >= HeaderLength
    modifies buf
    ensures buf[..] == HeaderInto(old(buf[..]), h)
  {
    PutU16LE(buf, 0, h.nodeId);
    PutU8(buf, 2, MajorVersion);
    PutU8(buf, 3, h.minorVersion);
    PutText(buf, 4, MagicHeader);
    PutU8(buf, 7, h.messageType);
    PutText(buf, 8, PadEnd(h.nodeName, NodeNameWidth));
    PutU8(buf, 16, h.sequence);
    PutU8(buf, 17, h.nodeType);
    PutU16LE(buf, 18, h.nodeOptions);
    PutU32LE(buf, 20, h.timestamp);
  }

  // ---------------------------------------------------------------------------
  // OptIn

  /**
    `TCNetOptInPacket.read` on a buffer of the class's length: both names are 7-bit text of
    at most 16 characters, and the versions are bytes 64-66.
  */
  function DecodeOptIn(b: seq<byte>): (r: OptInBody)
    requires |b| == OptInLength
    ensures |r.vendorName| <= AppTextWidth && |r.appName| <= AppTextWidth
    ensures forall i :: 0 <= i < |r.vendorName| ==> r.vendorName[i] as int < 0x80
    ensures forall i :: 0 <= i < |r.appName| ==> r.appName[i] as int < 0x80
  {
    OptInBody(U16At(b, 24), U16At(b, 26), U16At(b, 28),
      TextField(b, 32, 48), TextField(b, 48, 64), b[64], b[65], b[66])
  }

  /**
    The first five writes of `TCNetOptInPacket.write`: counters and names, bytes 24-63. The
    three counters read back whatever the names, and the header bytes are kept.
  */
  function OptInFieldsInto(b: seq<byte>, o: OptInBody): (r: seq<byte>)
    requires |b| == OptInLength
    ensures |r| == |b|
    ensures U16At(r, 24) == o.nodeCount && U16At(r, 26) == o.nodeListenerPort && U16At(r, 28) == o.uptime
    ensures forall i :: 0 <= i < HeaderLength ==> r[i] == b[i]
  {
    var b1 := SetU16LE(b, 24, o.nodeCount);
    var b2 := SetU16LE(b1, 26, o.nodeListenerPort);
    var b3 := SetU16LE(b2, 28, o.uptime);
    var b4 := SetText(b3, 32, PadEnd(o.vendorName, AppTextWidth));
    var r := SetText(b4, 48, PadEnd(o.appName, AppTextWidth));
    assert U16At(r, 24) == U16At(b1, 24) by { assert r[24] == b1[24] && r[25] == b1[25]; }
    assert U16At(r, 26) == U16At(b2, 26) by { assert r[26] == b2[26] && r[27] == b2[27]; }
    assert U16At(r, 28) == U16At(b3, 28) by { assert r[28] == b3[28] && r[29] == b3[29]; }
    r
  }

  /** `TCNetOptInPacket.write` as intended: the three version bytes stored at 64, 65 and 66. */
  function OptInInto(b: seq<byte>, o: OptInBody): (r: seq<byte>)
    requires |b| == OptInLength
    ensures |r| == |b|
    ensures r[64] == o.majorVersion && r[65] == o.minorVersion && r[66] == o.bugVersion
    ensures forall i :: 0 <= i < HeaderLength ==> r[i] == b[i]
  {
    SetU8(SetU8(SetU8(OptInFieldsInto(b, o), 64, o.majorVersion), 65, o.minorVersion), 66, o.bugVersion)
  }

  /**
    `TCNetOptInPacket.write` as the source has it: `writeUInt8(64, majorVersion)` and its two
    neighbours pass the value where the offset belongs, so the constant 64 (65, 66) lands at
    offset `majorVersion` (`minorVersion`, `bugVersion`), and an offset past the end throws.
  */
  function OptInIntoAsWritten(b: seq<byte>, o: OptInBody): (r: Result<seq<byte>, WriteError>)
    requires |b| == OptInLength
    ensures r.Failure? <==> o.majorVersion >= |b| || o.minorVersion >= |b| || o.bugVersion >= |b|
    ensures r.Success? ==> |r.value| == |b| && r.value[o.bugVersion] == 66
    ensures r.Success? && o.minorVersion != o.bugVersion ==> r.value[o.minorVersion] == 65
    ensures r.Success? && o.majorVersion != o.minorVersion && o.majorVersion != o.bugVersion ==>
      r.value[o.majorVersion] == 64
    ensures r.Success? ==> forall i :: 0 <= i < |b| && i != o.majorVersion && i != o.minorVersion && i != o.bugVersion ==>
      r.value[i] == OptInFieldsInto(b, o)[i]
  {
    var b5 := OptInFieldsInto(b, o);
    if o.majorVersion >= |b| || o.minorVersion >= |b| || o.bugVersion >= |b| then Failure(OffsetOutOfRange)
    else Success(SetU8(SetU8(SetU8(b5, o.majorVersion, 64), o.minorVersion, 65), o.bugVersion, 66))
  }

  /**
    `TCNetOptInPacket.write` on a buffer, as the source has it: the counter and name writes,
    then `writeUInt8(64, majorVersion)` and its two neighbours, each of which throws, with the
    earlier writes already made, when its version is not an offset inside the buffer.
  */
  method WriteOptIn(buf: array<byte>, o: OptInBody) returns (r: Result<(), WriteError>)
    requires buf.Length == OptInLength
    modifies buf
    ensures r.Success? <==> OptInIntoAsWritten(old(buf[..]), o).Success?
    ensures r.Success? ==> buf[..] == OptInIntoAsWritten(old(buf[..]), o).value
    ensures r.Failure? ==> r.error == OffsetOutOfRange
    ensures o.majorVersion >= OptInLength ==> buf[..] == OptInFieldsInto(old(buf[..]), o)
    ensures o.majorVersion < OptInLength <= o.minorVersion ==>
      buf[..] == SetU8(OptInFieldsInto(old(buf[..]), o), o.majorVersion, 64)
    ensures o.majorVersion < OptInLength && o.minorVersion < OptInLength <= o.bugVersion ==>
      buf[..] == SetU8(SetU8(OptInFieldsInto(old(buf[..]), o), o.majorVersion, 64), o.minorVersion, 65)
  {
    WriteOptInFields(buf, o);
    if o.majorVersion >= buf.Length {
      return Failure(OffsetOutOfRange);
    }
    PutU8(buf, o.majorVersion, 64);
    if o.minorVersion >= buf.Length {
      return Failure(OffsetOutOfRange);
    }
    PutU8(buf, o.minorVersion, 65);
    if o.bugVersion >= buf.Length {
      return Failure(OffsetOutOfRange);
    }
    PutU8(buf, o.bugVersion, 66);
    r := Success(());
  }

  /** The counter and name writes shared by both OptIn writers. */
  method WriteOptInFields(buf: array<byte>, o: OptInBody)
    requires buf.Length == OptInLength
    modifies buf
    ensures buf[..] == OptInFieldsInto(old(buf[..]), o)
  {
    PutU16LE(buf, 24, o.nodeCount);
    PutU16LE(buf, 26, o.nodeListenerPort);
    PutU16LE(buf, 28, o.uptime);
    PutText(buf, 32, PadEnd(o.vendorName, AppTextWidth));
    PutText(buf, 48, PadEnd(o.appName, AppTextWidth));
  }

  /** `TCNetOptInPacket.write` as intended, on a buffer: the versions at bytes 64, 65 and 66. */
  method WriteOptInIntended(buf: array<byte>, o: OptInBody)
    requires buf.Length == OptInLength
    modifies buf
    ensures buf[..] == OptInInto(old(buf[..]), o)
  {
    WriteOptInFields(buf, o);
    PutU8(buf, 64, o.majorVersion);
    PutU8(buf, 65, o.minorVersion);
    PutU8(buf, 66, o.bugVersion);
  }

  // ---------------------------------------------------------------------------
  // OptOut

  /** `TCNetOptOutPacket.read`: writing back what it read gives the same buffer. */
  function DecodeOptOut(b: seq<byte>): (r: OptOutBody)
    requires |b| == OptOutLength
    ensures OptOutInto(b, r) == b
  {
    OptOutBody(U16At(b, 24), U16At(b, 26))
  }

  /** `TCNetOptOutPacket.write`: the two counters at 24 and 26, the header bytes 0-23 kept. */
  function OptOutInto(b: seq<byte>, o: OptOutBody): (r: seq<byte>)
    requires |b| == OptOutLength
    ensures |r| == |b|
    ensures U16At(r, 24) == o.nodeCount && U16At(r, 26) == o.nodeListenerPort
    ensures r[..HeaderLength] == b[..HeaderLength]
  {
    SetU16LE(SetU16LE(b, 24, o.nodeCount), 26, o.nodeListenerPort)
  }

  method WriteOptOut(buf: array<byte>, o: OptOutBody)
    requires buf.Length == OptOutLength
    modifies buf
    ensures buf[..] == OptOutInto(old(buf[..]), o)
  {
    PutU16LE(buf, 24, o.nodeCount);
    PutU16LE(buf, 26, o.nodeListenerPort);
  }

  // ---------------------------------------------------------------------------
  // Request and Data: the same two bytes, data type at 24 and layer at 25

  /** `TCNetRequestPacket.write` and `TCNetDataPacket.write`: `writeUInt8` throws for a value past 255. */
  function TypeLayerInto(b: seq<byte>, dataType: nat, layer: nat): (r: Result<seq<byte>, WriteError>)
    requires |b| == RequestLength
    ensures r.Failure? <==> dataType > 0xFF || layer > 0xFF
    ensures r.Success? ==> |r.value| == |b| && r.value[24] == dataType && r.value[25] == layer
    ensures r.Success? ==> forall i :: 0 <= i < 24 ==> r.value[i] == b[i]
  {
    if dataType > 0xFF || layer > 0xFF then Failure(ValueOutOfRange)
    else Success(SetU8(SetU8(b, 24, dataType), 25, layer))
  }

  /**
    The same write on a buffer, in the source's order: the data type is written before the
    layer is checked, so a layer past 255 throws with byte 24 already written.
  */
  method WriteTypeLayer(buf: array<byte>, dataType: nat, layer: nat) returns (r: Result<(), WriteError>)
    requires buf.Length == RequestLength
    modifies buf
    ensures TypeLayerInto(old(buf[..]), dataType, layer).Success? <==> r.Success?
    ensures r.Success? ==> buf[..] == TypeLayerInto(old(buf[..]), dataType, layer).value
    ensures r.Failure? ==> r.error == ValueOutOfRange
    ensures dataType > 0xFF ==> buf[..] == old(buf[..])
    ensures dataType <= 0xFF && layer > 0xFF ==> buf[..] == SetU8(old(buf[..]), 24, dataType)
  {
    if dataType > 0xFF {
      return Failure(ValueOutOfRange);
    }
    PutU8(buf, 24, dataType);
    if layer > 0xFF {
      return Failure(ValueOutOfRange);
    }
    PutU8(buf, 25, layer);
    r := Success(());
  }

  // ---------------------------------------------------------------------------
  // Status

  /** `TCNetStatusPacket.read`: four arrays of exactly eight layers at fixed strides. */
  function DecodeStatus(b: seq<byte>): (r: StatusBody)
    requires |b| == StatusLength
    ensures |r.layerSource| == Layers && |r.layerStatus| == Layers
    ensures |r.trackID| == Layers && |r.layerName| == Layers
    ensures forall n :: 0 <= n < Layers ==> |r.layerName[n]| <= LayerNameWidth
  {
    StatusBody(
      U16At(b, 24), U16At(b, 26),
      seq(Layers, n requires 0 <= n < Layers => b[34 + n]),
      seq(Layers, n requires 0 <= n < Layers => b[42 + n]),
      seq(Layers, n requires 0 <= n < Layers => U32At(b, 50 + 4 * n)),
      b[83], b[84],
      seq(Layers, n requires 0 <= n < Layers => TextField(b, 172 + 16 * n, 172 + 16 * (n + 1))))
  }

  /** `TCNetStatusPacket.read` with its four `for` loops filling eight-element arrays. */
  method ReadStatus(b: seq<byte>) returns (st: StatusBody)
    requires |b| == StatusLength
    ensures st == DecodeStatus(b)
  {
    var layerSource := new byte[Layers];
    var layerStatus := new byte[Layers];
    var trackID := new u32[Layers];
    var layerName := new string[Layers];
    ReadLayerBytes(layerSource, b, 34);
    ReadLayerBytes(layerStatus, b, 42);
    ReadTrackIDs(trackID, b);
    ReadLayerNames(layerName, b);
    ghost var spec := DecodeStatus(b);
    assert layerSource[..] == spec.layerSource;
    assert layerStatus[..] == spec.layerStatus;
    assert trackID[..] == spec.trackID;
    assert layerName[..] == spec.layerName;
    st := StatusBody(U16At(b, 24), U16At(b, 26), layerSource[..], layerStatus[..], trackID[..],
      b[83], b[84], layerName[..]);
  }

  /** The loop filling `layerSource` (from byte 34) or `layerStatus` (from byte 42). */
  method ReadLayerBytes(a: array<byte>, b: seq<byte>, from: nat)
    requires a.Length == Layers && from + Layers <= |b|
    modifies a
    ensures forall k :: 0 <= k < Layers ==> a[k] == b[from + k]
  {
    for n := 0 to Layers
      invariant forall k :: 0 <= k < n ==> a[k] == b[from + k]
    {
      a[n] := b[from + n];
    }
  }

  /** The loop reading the eight track ids from byte 50 on. */
  method ReadTrackIDs(a: array<u32>, b: seq<byte>)
    requires a.Length == Layers && |b| == StatusLength
    modifies a
    ensures forall k :: 0 <= k < Layers ==> a[k] == U32At(b, 50 + 4 * k)
  {
    for n := 0 to Layers
      invariant forall k :: 0 <= k < n ==> a[k] == U32At(b, 50 + 4 * k)
    {
      a[n] := U32At(b, 50 + n * 4);
    }
  }

  /** The loop reading the eight sixteen-byte layer names from byte 172 on. */
  method ReadLayerNames(a: array<string>, b: seq<byte>)
    requires a.Length == Layers && |b| == StatusLength
    modifies a
    ensures forall k :: 0 <= k < Layers ==> a[k] == TextField(b, 172 + 16 * k, 172 + 16 * (k + 1))
  {
    for n := 0 to Layers
      invariant forall k :: 0 <= k < n ==> a[k] == TextField(b, 172 + 16 * k, 172 + 16 * (k + 1))
    {
      a[n] := TextField(b, 172 + n * 16, 172 + (n + 1) * 16);
    }
  }

  // ---------------------------------------------------------------------------
  // Metadata (a Data sub-type)

  /**
    `TCNetDataPacketMetadata.read`. The two text slices clamp at the end of the buffer,
    but the key and track id reads throw unless the buffer reaches byte 547.
  */
  function DecodeMetadata(b: seq<byte>, dataType: byte, layer: byte): (r: Result<TrackMetadata, DecodeError>)
    ensures r.Failure? <==> |b| < MetadataExtent
  {
    if |b| < MetadataExtent then Failure(ReadOutOfRange)
    else Success(TrackMetadata(dataType, layer,
      TextField(b, 29, 285), TextField(b, 285, 541), U16At(b, 541), U32At(b, 543)))
  }

  // ---------------------------------------------------------------------------
  // Packet classes and whole messages

  /**
    The packet classes a registry entry may name. A class whose layout is not part of this
    model is known by its type code, its `length()` and how many bytes its `read()` needs:
    on a shorter datagram that read throws.
  */
  datatype Codec =
    | OptInCodec | OptOutCodec | StatusCodec | RequestCodec | DataCodec
    | UnmodelledCodec(code: byte, declaredLength: int, extent: nat)
  {
    /** `length()` of the class. */
    function Length(): int
    {
      match this
      case OptInCodec => OptInLength
      case OptOutCodec => OptOutLength
      case StatusCodec => StatusLength
      case RequestCodec => RequestLength
      case DataCodec => DataLength
      case UnmodelledCodec(_, n, _) => n
    }
  }

  /**
    The Data sub-classes a data registry entry may name; one whose layout is not modelled is
    known by how many bytes its `read()` needs.
  */
  datatype DataCodec = MetadataCodec | UnmodelledDataCodec(extent: nat)

  /**
    `packet.read()` of the class, on a buffer that passed the length check. The reads of the
    modelled classes stay inside their `length()` and never throw; an unmodelled class's
    read throws exactly when the datagram is shorter than what it reads.
  */
  function Read(c: Codec, b: seq<byte>): (r: Result<Body, DecodeError>)
    requires c.UnmodelledCodec? || |b| == c.Length()
    ensures r.Failure? <==> c.UnmodelledCodec? && |b| < c.extent
    ensures r.Success? ==> Length(r.value) == c.Length()
    ensures r.Success? && (r.value.RequestPacket? || r.value.DataPacket?) ==> r.value.dataType <= 0xFF && r.value.layer <= 0xFF
  {
    match c
    case OptInCodec => Success(OptInPacket(DecodeOptIn(b)))
    case OptOutCodec => Success(OptOutPacket(DecodeOptOut(b)))
    case StatusCodec => Success(StatusPacket(DecodeStatus(b)))
    case RequestCodec => Success(RequestPacket(b[24], b[25]))
    case DataCodec => Success(DataPacket(b[24], b[25]))
    case UnmodelledCodec(code, n, e) => if |b| < e then Failure(ReadOutOfRange) else Success(UnmodelledPacket(code, n))
  }

  /**
    `dataPacket.read()` of a Data sub-class, on the whole received datagram: it throws exactly
    when the datagram ends before the last byte the class reads.
  */
  function ReadData(c: DataCodec, b: seq<byte>, dataType: byte, layer: byte): (r: Result<DataBody, DecodeError>)
    ensures r.Failure? <==> (c == MetadataCodec && |b| < MetadataExtent) || (c.UnmodelledDataCodec? && |b| < c.extent)
  {
    match c
    case MetadataCodec =>
      (match DecodeMetadata(b, dataType, layer)
       case Success(m) => Success(MetadataResponse(m))
       case Failure(e) => Failure(e))
    case UnmodelledDataCodec(e) => if |b| < e then Failure(ReadOutOfRange) else Success(UnmodelledResponse(dataType, layer))
  }

  /**
    The bodies whose `write()` succeeds as the source has it: an OptIn only when each
    version number is an offset inside its 68 bytes (see `OptInIntoAsWritten`).
  */
  predicate Encodable(body: Body)
  {
    match body
    case OptInPacket(o) => o.majorVersion < OptInLength && o.minorVersion < OptInLength && o.bugVersion < OptInLength
    case OptOutPacket(_) => true
    case RequestPacket(t, l) => t <= 0xFF && l <= 0xFF
    case DataPacket(t, l) => t <= 0xFF && l <= 0xFF
    case _ => false
  }

  /**
    The datagram `sendPacket` builds: `Buffer.alloc(length())`, the header written, then
    the body written by the class as the source has it. Status and Metadata `write()` always
    throw; an OptIn with a version number past 67 throws from its misplaced version write.
  */
  function Encode(h: Header, body: Body): (r: Result<seq<byte>, WriteError>)
    requires !body.UnmodelledPacket?
    ensures r.Success? <==> Encodable(body)
    ensures r.Success? ==> |r.value| == Length(body)
    ensures r.Failure? ==> r.error == WriteFailure(body)
  {
    var buf := HeaderInto(Zeros(Length(body)), h);
    match body
    case OptInPacket(o) => OptInIntoAsWritten(buf, o)
    case OptOutPacket(o) => Success(OptOutInto(buf, o))
    case StatusPacket(_) => Failure(NotSupported)
    case RequestPacket(t, l) => TypeLayerInto(buf, t, l)
    case DataPacket(t, l) => TypeLayerInto(buf, t, l)
    case MetadataPacket(_) => Failure(NotSupported)
  }

  /**
    What a failing `write()` throws: a range error for an OptIn version past its buffer, "not
    supported" for Status and Metadata, a range error for a data type or layer above 255.
  */
  function WriteFailure(body: Body): WriteError
  {
    match body
    case OptInPacket(_) => OffsetOutOfRange
    case StatusPacket(_) => NotSupported
    case MetadataPacket(_) => NotSupported
    case _ => ValueOutOfRange
  }

  /** The classes with a `write()` that can succeed. */
  predicate HasWrite(body: Body)
  {
    body.OptInPacket? || body.OptOutPacket? || body.RequestPacket? || body.DataPacket?
  }

  /**
    `Encode` with the corrected OptIn writer: an OptIn always encodes, and every other body
    encodes to exactly what `Encode` gives.
  */
  function EncodeIntended(h: Header, body: Body): (r: Result<seq<byte>, WriteError>)
    requires !body.UnmodelledPacket?
    ensures r.Success? <==> body.OptInPacket? || Encodable(body)
    ensures r.Success? ==> |r.value| == Length(body)
    ensures !body.OptInPacket? ==> r == Encode(h, body)
  {
    var buf := HeaderInto(Zeros(Length(body)), h);
    match body
    case OptInPacket(o) => Success(OptInInto(buf, o))
    case OptOutPacket(_) => Encode(h, body)
    case StatusPacket(_) => Encode(h, body)
    case RequestPacket(_, _) => Encode(h, body)
    case DataPacket(_, _) => Encode(h, body)
    case MetadataPacket(_) => Encode(h, body)
  }

  /** The class that reads back an encodable body. */
  function CodecOf(body: Body): (c: Codec)
    requires HasWrite(body)
    ensures c.Length() == Length(body)
  {
    match body
    case OptInPacket(_) => OptInCodec
    case OptOutPacket(_) => OptOutCodec
    case RequestPacket(_, _) => RequestCodec
    case DataPacket(_, _) => DataCodec
  }
}
