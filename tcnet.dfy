/**
  The TCNet client engine: the packet registry lookup, the header it stamps on every send,
  the sequence and uptime counters, the discovered server, the connect waiter and the table
  of pending data requests. Sockets, timers and promises are replaced by explicit events:
  each receive callback, timer expiry and send outcome is a method call, sends are appended
  to `sent`, and settled promises and emitted events are appended to `events`.
*/
module Client {
  import opened Wrappers
  import opened Wire
  import opened Network
  import opened NetworkProperties

  const BroadcastPort: u16 := 60000
  const TimestampPort: u16 := 60001
  /** `fillHeader` counts the sequence number modulo 255. */
  const SeqModulus: nat := 255
  /** The announced uptime rolls over after 12 hours of one-second announcements. */
  const UptimeRollover: nat := 12 * 60 * 60
  /** Header fields the client always sends. */
  const OwnMinorVersion: byte := 5
  const OwnNodeType: byte := 0x04

  /** `TCNetConfiguration`. */
  datatype Configuration = Configuration(
    unicastPort: u16,
    applicationCode: int,
    nodeId: u16,
    nodeName: string,
    vendorName: string,
    appName: string,
    broadcastAddress: string,
    requestTimeout: int)

  /**
    The default configuration; `nodeId` stands for the draw `Math.floor(Math.random() * 0xffff)`.
    Its names fit their fields, so everything the client sends with it reads back.
  */
  function DefaultConfiguration(nodeId: u16): (c: Configuration)
    requires nodeId < 0xFFFF
    ensures FitsField(c.nodeName, NodeNameWidth)
    ensures FitsField(c.vendorName, AppTextWidth) && FitsField(c.appName, AppTextWidth)
  {
    Configuration(65032, 0xFFFF, nodeId, "TCNET.JS", "CHDXD1", "NODE-TCNET", "255.255.255.255", 2000)
  }

  // ---------------------------------------------------------------------------
  // Registry and parsing

  /** `TCNetPackets`: message-type code to packet class, or null for an unimplemented type. */
  type Registry = map<int, Option<Codec>>
  /** `TCNetDataPackets`: Data sub-type code to packet class, or null. */
  type DataRegistry = map<int, Option<DataCodec>>

  /** Exceptions that escape a receive callback. */
  datatype Crash =
    | ReadFailed(DecodeError)  // a read past the end of the datagram
    | NotAConstructor          // `new undefined()` for a code missing from a registry

  /** A parsed packet: the header, the body read by its class, and the datagram it came from. */
  datatype InPacket = InPacket(header: Header, body: Body, buffer: seq<byte>)

  /**
    `parsePacket`. A code missing from the registry throws; a null entry gives null; a class
    whose `length()` is not -1 and differs from the datagram's length gives null; otherwise
    the class reads the datagram, and a read past its end throws.
  */
  function ParsePacket(packets: Registry, header: Header, buffer: seq<byte>): (r: Result<Option<InPacket>, Crash>)
    ensures r == Failure(NotAConstructor) <==> header.messageType !in packets
    ensures r == Success(None) <==>
      header.messageType in packets &&
      (packets[header.messageType].None? ||
       (packets[header.messageType].value.Length() != -1 && packets[header.messageType].value.Length() != |buffer|))
    ensures r.Failure? && header.messageType in packets ==>
      && packets[header.messageType].Some?
      && packets[header.messageType].value.UnmodelledCodec?
      && |buffer| < packets[header.messageType].value.extent
      && r == Failure(ReadFailed(ReadOutOfRange))
    ensures r.Success? && r.value.Some? ==>
      var c := packets[header.messageType].value;
      && r.value.value.header == header && r.value.value.buffer == buffer
      && (c.UnmodelledCodec? || |buffer| == c.Length())
      && Read(c, buffer) == Success(r.value.value.body)
  {
    var code := header.messageType;
    if code !in packets then Failure(NotAConstructor)
    else match packets[code]
      case None => Success(None)
      case Some(c) =>
        if c.Length() != -1 && c.Length() != |buffer| then Success(None)
        else match Read(c, buffer)
          case Success(body) => Success(Some(InPacket(header, body, buffer)))
          case Failure(e) => Failure(ReadFailed(e))
  }

  /**
    A registry that routes Data messages to the 26-byte Data class passes only 26-byte
    datagrams on, and the Metadata read of such a datagram always throws: through that
    class no Metadata response can reach a pending request.
  */
  lemma MetadataThroughDataClass(packets: Registry, header: Header, msg: seq<byte>)
    requires header.messageType in packets && packets[header.messageType] == Some(DataCodec)
    requires ParsePacket(packets, header, msg).Success? && ParsePacket(packets, header, msg).value.Some?
    ensures |msg| == DataLength
    ensures var body := ParsePacket(packets, header, msg).value.value.body;
      body.DataPacket? && ReadData(MetadataCodec, msg, body.dataType, body.layer).Failure?
  {
  }

  // ---------------------------------------------------------------------------
  // Pending-request keys: `${dataType}-${layer}`

  function DigitChar(d: nat): (c: char)
    requires d < 10
    ensures '0' <= c <= '9' && c as int - '0' as int == d
  {
    ('0' as int + d) as char
  }

  /** The decimal rendering of a number, as a template string produces it. */
  function Decimal(n: nat): (s: string)
    ensures 1 <= |s| && (|s| == 1 <==> n < 10)
    ensures forall i :: 0 <= i < |s| ==> '0' <= s[i] <= '9'
  {
    if n < 10 then [DigitChar(n)] else Decimal(n / 10) + [DigitChar(n % 10)]
  }

  /** Different numbers render differently. */
  lemma {:induction false} DecimalInjective(a: nat, b: nat)
    requires Decimal(a) == Decimal(b)
    ensures a == b
  {
    if a >= 10 && b >= 10 {
      var da, db := Decimal(a), Decimal(b);
      assert da[..|da| - 1] == Decimal(a / 10);
      assert db[..|db| - 1] == Decimal(b / 10);
      DecimalInjective(a / 10, b / 10);
      assert DigitChar(a % 10) == da[|da| - 1] == db[|db| - 1] == DigitChar(b % 10);
    }
  }

  /** The key of a pending request: decimal digits, a dash, decimal digits. */
  function RequestKey(dataType: nat, layer: nat): (r: string)
    ensures 3 <= |r|
    ensures forall i :: 0 <= i < |r| ==> r[i] == '-' || '0' <= r[i] <= '9'
  {
    Decimal(dataType) + "-" + Decimal(layer)
  }

  /** The first dash of a key is the one right after the data type's digits. */
  lemma KeyDash(dataType: nat, layer: nat)
    ensures var k, n := RequestKey(dataType, layer), |Decimal(dataType)|;
      n < |k| && k[n] == '-' && forall i :: 0 <= i < n ==> k[i] != '-'
  {
    var k, d := RequestKey(dataType, layer), Decimal(dataType);
    assert forall i :: 0 <= i < |d| ==> k[i] == d[i];
  }

  /** Two requests share a key only when they ask for the same data type and layer. */
  lemma RequestKeyInjective(t1: nat, l1: nat, t2: nat, l2: nat)
    requires RequestKey(t1, l1) == RequestKey(t2, l2)
    ensures t1 == t2 && l1 == l2
  {
    var a, b := Decimal(t1), Decimal(t2);
    var k := RequestKey(t1, l1);
    KeyDash(t1, l1);
    KeyDash(t2, l2);
    assert |a| == |b|;
    assert a == k[..|a|] == b;
    DecimalInjective(t1, t2);
    assert Decimal(l1) == k[|a| + 1..] == Decimal(l2);
    DecimalInjective(l1, l2);
  }

  // ---------------------------------------------------------------------------
  // Counters

  /** `this.seq = (this.seq + 1) % 255`. */
  function NextSeq(s: int): (r: byte)
    ensures 0 <= r < SeqModulus
  {
    (s + 1) % SeqModulus
  }

  /** The stored sequence number after `k` header fills from the initial 0. */
  function SeqAfter(k: nat): (r: byte)
  {
    if k == 0 then 0 else NextSeq(SeqAfter(k - 1))
  }

  /**
    The k-th header the client fills carries k modulo 255: the first send carries 1,
    sends 254 and 255 carry 254 and 0, and no sequence number exceeds 254.
  */
  lemma {:induction false} SeqAfterIsModulo(k: nat)
    ensures SeqAfter(k) == k % SeqModulus
  {
    if k > 0 {
      SeqAfterIsModulo(k - 1);
    }
  }

  /** `announceApp`'s counter step: increment, reset to 0 on reaching 43200. */
  function NextUptime(u: int): (r: int)
    requires 0 <= u < UptimeRollover
    ensures 0 <= r < UptimeRollover
    ensures r == 0 <==> u == UptimeRollover - 1
  {
    if u + 1 >= UptimeRollover then 0 else u + 1
  }

  /** The stored uptime after `k` announcements from the initial 0. */
  function UptimeAfter(k: nat): (r: int)
    ensures 0 <= r < UptimeRollover
  {
    if k == 0 then 0 else NextUptime(UptimeAfter(k - 1))
  }

  /**
    Announcement k (counting from 0) carries uptime k modulo 43200: the announced values
    run through 0..43199 and start over, never negative and never skipping one.
  */
  lemma {:induction false} UptimeAfterIsModulo(k: nat)
    ensures UptimeAfter(k) == k % UptimeRollover
  {
    if k > 0 {
      UptimeAfterIsModulo(k - 1);
    }
  }

  // ---------------------------------------------------------------------------
  // What the client sends

  datatype Endpoint = Endpoint(address: string, port: int)

  /**
    The `server` field: never assigned (it has no initializer, so it starts out undefined
    rather than null), cleared to null by a Master's OptOut, or the Master's address.
  */
  datatype ServerSlot = Unset | Cleared | Known(endpoint: Endpoint)

  /** One datagram handed to a socket: destination, header as filled, and body. */
  datatype Datagram = Datagram(dest: Endpoint, header: Header, body: Body)

  /** The header `fillHeader` stamps on a packet, given the new sequence number. */
  function OwnHeader(config: Configuration, body: Body, sequence: byte): (h: Header)
    ensures h.messageType == TypeCode(body) && h.sequence == sequence
    ensures h.nodeId == config.nodeId && h.nodeName == config.nodeName
    ensures h.minorVersion == OwnMinorVersion && h.nodeType == OwnNodeType
    ensures h.nodeOptions == 0 && h.timestamp == 0
  {
    Header(config.nodeId, OwnMinorVersion, TypeCode(body), config.nodeName, sequence, OwnNodeType, 0, 0)
  }

  /**
    The OptIn `announceApp` builds around the uptime value it announces. Its version numbers
    1, 1, 1 are offsets inside the buffer, so even the writer as the source has it succeeds.
  */
  function Announcement(config: Configuration, uptime: u16): (r: Body)
    ensures r.OptInPacket? && Encodable(r)
    ensures r.optIn.uptime == uptime && r.optIn.nodeListenerPort == config.unicastPort
  {
    OptInPacket(OptInBody(0, config.unicastPort, uptime, config.vendorName, config.appName, 1, 1, 1))
  }

  /**
    With names that fit, a peer whose registry maps the OptIn code to the OptIn class parses
    the announcement datagram, as the source writes it, to the header the client filled in
    but with 66 as the high byte of the node id, and to the body the client filled in but
    with version 0.0.0.
  */
  lemma AnnouncementReadsBack(config: Configuration, uptime: u16, sequence: byte, packets: Registry)
    requires FitsField(config.nodeName, NodeNameWidth)
    requires FitsField(config.vendorName, AppTextWidth) && FitsField(config.appName, AppTextWidth)
    requires MessageType.OptIn.Code() in packets && packets[MessageType.OptIn.Code()] == Some(OptInCodec)
    ensures var body := Announcement(config, uptime);
      var h := OwnHeader(config, body, sequence);
      && Encode(h, body).Success?
      && HeaderValid(Encode(h, body).value)
      && DecodeHeader(Encode(h, body).value) == Success(h.(nodeId := config.nodeId % 0x100 + 66 * 0x100))
      && ParsePacket(packets, DecodeHeader(Encode(h, body).value).value, Encode(h, body).value) ==
         Success(Some(InPacket(DecodeHeader(Encode(h, body).value).value,
           OptInPacket(body.optIn.(majorVersion := 0, minorVersion := 0, bugVersion := 0)),
           Encode(h, body).value)))
  {
    var body := Announcement(config, uptime);
    var h := OwnHeader(config, body, sequence);
    AnnouncedOptInAsWritten(h, body.optIn);
  }

  /**
    The same announcement built with the corrected OptIn writer parses back to exactly the
    header and body the client filled in.
  */
  lemma AnnouncementReadsBackIntended(config: Configuration, uptime: u16, sequence: byte, packets: Registry)
    requires FitsField(config.nodeName, NodeNameWidth)
    requires FitsField(config.vendorName, AppTextWidth) && FitsField(config.appName, AppTextWidth)
    requires MessageType.OptIn.Code() in packets && packets[MessageType.OptIn.Code()] == Some(OptInCodec)
    ensures var body := Announcement(config, uptime);
      var h := OwnHeader(config, body, sequence);
      && EncodeIntended(h, body).Success?
      && DecodeHeader(EncodeIntended(h, body).value) == Success(h)
      && ParsePacket(packets, h, EncodeIntended(h, body).value) == Success(Some(InPacket(h, body, EncodeIntended(h, body).value)))
  {
    var body := Announcement(config, uptime);
    var h := OwnHeader(config, body, sequence);
    DatagramRoundTrip(h, body);
  }

  // ---------------------------------------------------------------------------
  // Outcomes and events

  type RequestId = nat

  datatype SendError =
    | ServerUnset                // `sendServer` reads the port of the undefined server: a TypeError
    | ServerNotDiscovered        // `sendServer` after the server was cleared
    | EncodeFailed(WriteError)   // `write()` threw while building the datagram
    | TransportFailed            // the socket reported an error

  datatype RejectReason = RequestTimedOut | SendFailed(SendError)

  datatype Event =
    | BroadcastEvent(packet: InPacket)        // emit("broadcast", packet)
    | TimeEvent(time: Option<InPacket>)       // emit("time", packet); null when parsing gave null
    | Resolved(id: RequestId, response: DataBody)
    | Rejected(id: RequestId, reason: RejectReason)
    | ConnectResolved
    | ConnectRejected

  /** The address every broadcast goes to. */
  function BroadcastEndpoint(config: Configuration): Endpoint
  {
    Endpoint(config.broadcastAddress, BroadcastPort)
  }

  /** `TCNetClient`. */
  class TCNetClient {
    const config: Configuration
    const packets: Registry
    const dataPackets: DataRegistry

    var sequence: int
    var uptime: int
    var server: ServerSlot
    var connected: bool
    /** A connect waiter is stored (`connectedHandler !== null`). */
    var connectedHandler: bool
    /** The promise of `connect()` is still pending. */
    var connectPending: bool
    /** The one-second announce interval is armed. */
    var announcing: bool
    /** `requests`: pending resolvers by key, each named by the id of the call that stored it. */
    var requests: map<string, RequestId>
    /** Ids of all `requestData` calls so far, and of those whose promise is settled. */
    var issued: set<RequestId>
    var settled: set<RequestId>
    /** The key each `requestData` call computed, which its timeout closure captures. */
    ghost var armedKey: map<RequestId, string>
    var sent: seq<Datagram>
    var events: seq<Event>

    ghost predicate Valid()
      reads this
    {
      && 0 <= sequence < SeqModulus
      && 0 <= uptime < UptimeRollover
      && settled <= issued
      && Armed()
      && SentEncodable()
    }

    /** Every datagram sent so far carries a body whose `write()` succeeded. */
    ghost predicate SentEncodable()
      reads this`sent
    {
      forall d :: d in sent ==> !d.body.UnmodelledPacket? && Encodable(d.body)
    }

    /** Every call has its key on record, and a stored resolver sits under its own call's key. */
    ghost predicate Armed()
      reads this`issued, this`armedKey, this`requests
    {
      && requests.Values <= issued
      && armedKey.Keys == issued
      && (forall k :: k in requests ==> requests[k] in armedKey && armedKey[requests[k]] == k)
    }

    constructor (config: Configuration, packets: Registry, dataPackets: DataRegistry)
      ensures Valid()
      ensures this.config == config && this.packets == packets && this.dataPackets == dataPackets
      ensures sequence == 0 && uptime == 0 && server == Unset
      ensures !connected && !connectedHandler && !connectPending && !announcing
      ensures requests == map[] && issued == {} && settled == {} && armedKey == map[] && sent == [] && events == []
    {
      this.config := config;
      this.packets := packets;
      this.dataPackets := dataPackets;
      sequence, uptime, server := 0, 0, Unset;
      connected, connectedHandler, connectPending, announcing := false, false, false, false;
      requests, issued, settled, sent, events := map[], {}, {}, [], [];
      armedKey := map[];
    }

    /** Settles a request's promise; settling an already settled promise has no effect. */
    method Settle(id: RequestId, ev: Event)
      requires Valid() && id in issued
      modifies this`settled, this`events
      ensures Valid()
      ensures settled == old(settled) + {id}
      ensures events == if id in old(settled) then old(events) else old(events) + [ev]
    {
      if id !in settled {
        settled := settled + {id};
        events := events + [ev];
      }
    }

    /** `fillHeader`: a fresh header with the next sequence number; nothing else changes. */
    method FillHeader(body: Body) returns (h: Header)
      requires Valid()
      modifies this`sequence
      ensures Valid()
      ensures sequence == NextSeq(old(sequence))
      ensures h == OwnHeader(config, body, sequence)
    {
      sequence := NextSeq(sequence);
      h := OwnHeader(config, body, sequence);
    }

    /**
      `sendPacket`: fill the header, build the datagram, hand it to the socket. A body whose
      `write()` throws is not sent; the header was filled all the same.
    */
    method SendPacket(body: Body, dest: Endpoint, delivered: bool) returns (r: Result<(), SendError>)
      requires Valid() && !body.UnmodelledPacket?
      modifies this`sequence, this`sent
      ensures Valid()
      ensures sequence == NextSeq(old(sequence))
      ensures var h := OwnHeader(config, body, sequence);
        if Encodable(body) then
          sent == old(sent) + [Datagram(dest, h, body)] &&
          r == if delivered then Success(()) else Failure(TransportFailed)
        else
          sent == old(sent) && r == Failure(EncodeFailed(WriteFailure(body)))
    {
      var h := FillHeader(body);
      var bytes := Encode(h, body);
      if bytes.Failure? {
        return Failure(EncodeFailed(bytes.error));
      }
      sent := sent + [Datagram(dest, h, body)];
      r := if delivered then Success(()) else Failure(TransportFailed);
    }

    /** `sendServer`: fails before filling any header while no server is known. */
    method SendServer(body: Body, delivered: bool) returns (r: Result<(), SendError>)
      requires Valid() && !body.UnmodelledPacket?
      modifies this`sequence, this`sent
      ensures Valid()
      ensures !old(server).Known? ==>
        && r == Failure(if old(server).Unset? then ServerUnset else ServerNotDiscovered)
        && sequence == old(sequence) && sent == old(sent)
      ensures old(server).Known? ==>
        sequence == NextSeq(old(sequence)) &&
        var h := OwnHeader(config, body, sequence);
        if Encodable(body) then
          sent == old(sent) + [Datagram(old(server).endpoint, h, body)] &&
          r == if delivered then Success(()) else Failure(TransportFailed)
        else
          sent == old(sent) && r == Failure(EncodeFailed(WriteFailure(body)))
    {
      if server == Cleared {
        return Failure(ServerNotDiscovered);
      }
      if server.Unset? {
        return Failure(ServerUnset);
      }
      r := SendPacket(body, server.endpoint, delivered);
    }

    /** `broadcastPacket`. */
    method BroadcastPacket(body: Body, delivered: bool) returns (r: Result<(), SendError>)
      requires Valid() && !body.UnmodelledPacket?
      modifies this`sequence, this`sent
      ensures Valid()
      ensures sequence == NextSeq(old(sequence))
      ensures var h := OwnHeader(config, body, sequence);
        if Encodable(body) then
          sent == old(sent) + [Datagram(BroadcastEndpoint(config), h, body)] &&
          r == if delivered then Success(()) else Failure(TransportFailed)
        else
          sent == old(sent) && r == Failure(EncodeFailed(WriteFailure(body)))
    {
      r := SendPacket(body, BroadcastEndpoint(config), delivered);
    }

    /**
      The counters and sends `announceApp` leaves behind, given the sequence number, sends,
      server and uptime before it and the outcome of each send: the uptime steps, the OptIn
      carrying the old uptime is broadcast, and when that succeeded and a server is known it
      is sent to the server too, with a second header fill.
    */
    ghost predicate AnnouncedFrom(sequence0: int, sent0: seq<Datagram>, server0: ServerSlot, uptime0: int,
      broadcastDelivered: bool, serverDelivered: bool, r: Result<(), SendError>)
      reads this
    {
      && 0 <= uptime0 < UptimeRollover
      && uptime == NextUptime(uptime0)
      && var body := Announcement(config, uptime0);
        var h1 := OwnHeader(config, body, NextSeq(sequence0));
        if !broadcastDelivered then
          sequence == NextSeq(sequence0) && sent == sent0 + [Datagram(BroadcastEndpoint(config), h1, body)] &&
          r == Failure(TransportFailed)
        else if !server0.Known? then
          sequence == NextSeq(sequence0) && sent == sent0 + [Datagram(BroadcastEndpoint(config), h1, body)] &&
          r == Success(())
        else
          var h2 := OwnHeader(config, body, NextSeq(NextSeq(sequence0)));
          sequence == NextSeq(NextSeq(sequence0)) &&
          sent == sent0 + [Datagram(BroadcastEndpoint(config), h1, body), Datagram(server0.endpoint, h2, body)] &&
          r == if serverDelivered then Success(()) else Failure(TransportFailed)
    }

    /**
      `announceApp`: announce the uptime held before the increment, broadcast the OptIn, and
      when that succeeded and a server is known, send it to the server too (with a second
      header fill).
    */
    method AnnounceApp(broadcastDelivered: bool, serverDelivered: bool) returns (r: Result<(), SendError>)
      requires Valid()
      modifies this`sequence, this`sent, this`uptime
      ensures Valid()
      ensures AnnouncedFrom(old(sequence), old(sent), old(server), old(uptime), broadcastDelivered, serverDelivered, r)
    {
      var announced := uptime;
      uptime := uptime + 1;
      if uptime >= UptimeRollover {
        uptime := 0;
      }
      var body := Announcement(config, announced);
      r := BroadcastPacket(body, broadcastDelivered);
      if r.Success? && server.Known? {
        r := SendServer(body, serverDelivered);
      }
    }

    /**
      `connect` once its sockets are bound: the first announcement; if that succeeded, the
      announce interval is armed and the connect waiter stored.
    */
    method Connect(broadcastDelivered: bool, serverDelivered: bool) returns (r: Result<(), SendError>)
      requires Valid() && !connectPending
      modifies this`sequence, this`sent, this`uptime, this`announcing, this`connectedHandler, this`connectPending
      ensures Valid()
      ensures AnnouncedFrom(old(sequence), old(sent), old(server), old(uptime), broadcastDelivered, serverDelivered, r)
      ensures r.Success? <==> broadcastDelivered && (!old(server).Known? || serverDelivered)
      ensures r.Success? ==> announcing && connectedHandler && connectPending
      ensures r.Failure? ==>
        announcing == old(announcing) && connectedHandler == old(connectedHandler) && !connectPending
    {
      r := AnnounceApp(broadcastDelivered, serverDelivered);
      if r.Success? {
        announcing := true;
        connectedHandler := true;
        connectPending := true;
      }
    }

    /**
      One expiry of the announce interval: an announcement while the interval is armed,
      nothing otherwise. `r` is the announcement's outcome; the interval does not handle a
      rejection, which then ends the process (not modelled).
    */
    method Tick(broadcastDelivered: bool, serverDelivered: bool) returns (r: Result<(), SendError>)
      requires Valid()
      modifies this`sequence, this`sent, this`uptime
      ensures Valid()
      ensures announcing ==>
        AnnouncedFrom(old(sequence), old(sent), old(server), old(uptime), broadcastDelivered, serverDelivered, r)
      ensures !announcing ==>
        r == Success(()) && uptime == old(uptime) && sequence == old(sequence) && sent == old(sent)
    {
      r := Success(());
      if announcing {
        r := AnnounceApp(broadcastDelivered, serverDelivered);
      }
    }

    /** `disconnect`: stops announcing and marks the client not connected. */
    method Disconnect()
      requires Valid()
      modifies this`announcing, this`connected
      ensures Valid()
      ensures !announcing && !connected
    {
      announcing := false;
      connected := false;
    }

    /** The connect timeout: if still not connected, disconnect and reject `connect()`. */
    method ConnectTimeout()
      requires Valid()
      modifies this`announcing, this`connected, this`connectPending, this`events
      ensures Valid()
      ensures old(connected) ==>
        announcing == old(announcing) && connected && connectPending == old(connectPending) && events == old(events)
      ensures !old(connected) ==> !announcing && !connected && !connectPending
      ensures !old(connected) ==>
        events == if old(connectPending) then old(events) + [ConnectRejected] else old(events)
    {
      if !connected {
        Disconnect();
        if connectPending {
          connectPending := false;
          events := events + [ConnectRejected];
        }
      }
    }

    /**
      `receiveBroadcast`. An OptOut whose header names a Master forgets the server, but only
      when both the sender's address and the OptOut's listener port match it; while
      connected, every parsed packet is published.
    */
    method ReceiveBroadcast(msg: seq<byte>, from: Endpoint) returns (r: Result<(), Crash>)
      requires Valid()
      modifies this`server, this`events
      ensures Valid()
      ensures DecodeHeader(msg).Failure? ==>
        r == Failure(ReadFailed(ReadOutOfRange)) && server == old(server) && events == old(events)
      ensures DecodeHeader(msg).Success? ==>
        var p := ParsePacket(packets, DecodeHeader(msg).value, msg);
        && (p.Failure? ==> r == Failure(p.error) && server == old(server) && events == old(events))
        && (p == Success(None) ==> r.Success? && server == old(server) && events == old(events))
        && (p.Success? && p.value.Some? ==>
              var pkt := p.value.value;
              && r.Success?
              && (server != old(server) <==>
                    && pkt.body.OptOutPacket?
                    && pkt.header.nodeType == NodeType.Master.Code()
                    && old(server).Known?
                    && old(server).endpoint.address == from.address
                    && old(server).endpoint.port == pkt.body.optOut.nodeListenerPort)
              && (server != old(server) ==> server == Cleared)
              && events == old(events) + (if connected then [BroadcastEvent(pkt)] else []))
    {
      var hr := DecodeHeader(msg);
      if hr.Failure? {
        return Failure(ReadFailed(hr.error));
      }
      var p := ParsePacket(packets, hr.value, msg);
      if p.Failure? {
        return Failure(p.error);
      }
      r := Success(());
      if p.value.Some? {
        var pkt := p.value.value;
        if pkt.body.OptOutPacket? && pkt.header.nodeType == NodeType.Master.Code() {
          if server.Known? && server.endpoint.address == from.address && server.endpoint.port == pkt.body.optOut.nodeListenerPort {
            server := Cleared;
          }
        }
        if connected {
          events := events + [BroadcastEvent(pkt)];
        }
      }
    }

    /**
      The Data branch of `receiveUnicast`, from the settled ids and events before it: a
      sub-type missing from the data registry throws; a null entry is ignored; otherwise the
      sub-type class reads the datagram, and the resolver under the key, if any, is called.
    */
    ghost predicate DataHandled(msg: seq<byte>, dataType: byte, layer: byte, settled0: set<RequestId>,
      events0: seq<Event>, r: Result<(), Crash>)
      reads this`settled, this`events, this`requests
    {
      && (dataType !in dataPackets <==> r == Failure(NotAConstructor))
      && (dataType !in dataPackets ==> settled == settled0 && events == events0)
      && (dataType in dataPackets && dataPackets[dataType].Some? ==>
            var d := ReadData(dataPackets[dataType].value, msg, dataType, layer);
            var key := RequestKey(dataType, layer);
            && (d.Failure? ==> r == Failure(ReadFailed(d.error)) && settled == settled0 && events == events0)
            && (d.Success? && key !in requests ==> r.Success? && settled == settled0 && events == events0)
            && (d.Success? && key in requests ==>
                  && r.Success?
                  && settled == settled0 + {requests[key]}
                  && events == (if requests[key] in settled0 then events0
                                else events0 + [Resolved(requests[key], d.value)])))
      && (dataType in dataPackets && dataPackets[dataType].None? ==>
            r.Success? && settled == settled0 && events == events0)
    }

    /** The Data branch of `receiveUnicast` for a Data packet of this sub-type and layer. */
    method ReceiveData(msg: seq<byte>, dataType: byte, layer: byte) returns (r: Result<(), Crash>)
      requires Valid()
      modifies this`settled, this`events
      ensures Valid()
      ensures DataHandled(msg, dataType, layer, old(settled), old(events), r)
    {
      if dataType !in dataPackets {
        return Failure(NotAConstructor);
      }
      r := Success(());
      if dataPackets[dataType].Some? {
        var d := ReadData(dataPackets[dataType].value, msg, dataType, layer);
        if d.Failure? {
          return Failure(ReadFailed(d.error));
        }
        var key := RequestKey(dataType, layer);
        if key in requests {
          Settle(requests[key], Resolved(requests[key], d.value));
        }
      }
    }

    /**
      The OptIn-from-a-Master branch of `receiveUnicast`: the Master becomes the server, and
      a stored connect waiter marks the client connected, resolves a pending `connect()` and
      is cleared.
    */
    method MasterFound(endpoint: Endpoint)
      requires Valid()
      modifies this`server, this`connected, this`connectedHandler, this`connectPending, this`events
      ensures Valid()
      ensures server == Known(endpoint)
      ensures connected == (old(connected) || old(connectedHandler))
      ensures !connectedHandler
      ensures connectPending == (old(connectPending) && !old(connectedHandler))
      ensures events == (if old(connectedHandler) && old(connectPending) then old(events) + [ConnectResolved]
                         else old(events))
    {
      server := Known(endpoint);
      if connectedHandler {
        connected := true;
        if connectPending {
          connectPending := false;
          events := events + [ConnectResolved];
        }
        connectedHandler := false;
      }
    }

    /**
      `receiveUnicast`. A Data packet is read again by its sub-type class and handed to the
      resolver stored under its own key, which stays in the table. An OptIn whose header
      names exactly a Master (node type 2, compared by equality) becomes the server, at the
      sender's address and the OptIn's listener port; a stored connect waiter then marks
      the client connected, is called once and cleared.
    */
    method ReceiveUnicast(msg: seq<byte>, from: Endpoint) returns (r: Result<(), Crash>)
      requires Valid()
      modifies this`server, this`connected, this`connectedHandler, this`connectPending, this`settled, this`events
      ensures Valid()
      ensures DecodeHeader(msg).Failure? ==>
        r.Failure? && server == old(server) && connected == old(connected) &&
        connectedHandler == old(connectedHandler) && connectPending == old(connectPending) &&
        settled == old(settled) && events == old(events)
      ensures DecodeHeader(msg).Success? && ParsePacket(packets, DecodeHeader(msg).value, msg).Success? &&
              ParsePacket(packets, DecodeHeader(msg).value, msg).value.Some? ==>
        var pkt := ParsePacket(packets, DecodeHeader(msg).value, msg).value.value;
        && (pkt.body.DataPacket? ==>
              && server == old(server) && connected == old(connected) && connectedHandler == old(connectedHandler)
              && connectPending == old(connectPending)
              && DataHandled(msg, pkt.body.dataType, pkt.body.layer, old(settled), old(events), r))
        && (pkt.body.OptInPacket? && pkt.header.nodeType == NodeType.Master.Code() ==>
              && r.Success?
              && server == Known(Endpoint(from.address, pkt.body.optIn.nodeListenerPort))
              && connected == (old(connected) || old(connectedHandler))
              && !connectedHandler
              && connectPending == (old(connectPending) && !old(connectedHandler))
              && settled == old(settled)
              && events == (if old(connectedHandler) && old(connectPending) then old(events) + [ConnectResolved]
                            else old(events)))
        && (!pkt.body.DataPacket? && !(pkt.body.OptInPacket? && pkt.header.nodeType == NodeType.Master.Code()) ==>
              r.Success? && server == old(server) && connected == old(connected) && connectedHandler == old(connectedHandler)
              && connectPending == old(connectPending) && settled == old(settled) && events == old(events))
      ensures DecodeHeader(msg).Success? && ParsePacket(packets, DecodeHeader(msg).value, msg) == Success(None) ==>
        r.Success? && server == old(server) && connected == old(connected) &&
        connectedHandler == old(connectedHandler) && connectPending == old(connectPending) &&
        settled == old(settled) && events == old(events)
      ensures DecodeHeader(msg).Success? && ParsePacket(packets, DecodeHeader(msg).value, msg).Failure? ==>
        r.Failure? && server == old(server) && connected == old(connected) &&
        connectedHandler == old(connectedHandler) && connectPending == old(connectPending) &&
        settled == old(settled) && events == old(events)
    {
      var hr := DecodeHeader(msg);
      if hr.Failure? {
        return Failure(ReadFailed(hr.error));
      }
      var header := hr.value;
      var p := ParsePacket(packets, header, msg);
      if p.Failure? {
        return Failure(p.error);
      }
      r := Success(());
      if p.value.None? {
        return;
      }
      var pkt := p.value.value;
      if pkt.body.DataPacket? {
        r := ReceiveData(msg, pkt.body.dataType, pkt.body.layer);
      } else if pkt.body.OptInPacket? && header.nodeType == NodeType.Master.Code() {
        MasterFound(Endpoint(from.address, pkt.body.optIn.nodeListenerPort));
      }
    }

    /**
      `receiveTimestamp`: datagrams that are not Time messages are dropped; a Time message is
      parsed and published, even when parsing gave null.
    */
    method ReceiveTimestamp(msg: seq<byte>, from: Endpoint) returns (r: Result<(), Crash>)
      requires Valid()
      modifies this`events
      ensures Valid()
      ensures DecodeHeader(msg).Failure? ==> r.Failure? && events == old(events)
      ensures DecodeHeader(msg).Success? && DecodeHeader(msg).value.messageType != MessageType.Time.Code() ==>
        r.Success? && events == old(events)
      ensures DecodeHeader(msg).Success? && DecodeHeader(msg).value.messageType == MessageType.Time.Code() ==>
        var p := ParsePacket(packets, DecodeHeader(msg).value, msg);
        && (p.Failure? ==> r == Failure(p.error) && events == old(events))
        && (p.Success? ==> r.Success? && events == old(events) + [TimeEvent(p.value)])
    {
      var hr := DecodeHeader(msg);
      if hr.Failure? {
        return Failure(ReadFailed(hr.error));
      }
      if hr.value.messageType != MessageType.Time.Code() {
        return Success(());
      }
      var p := ParsePacket(packets, hr.value, msg);
      if p.Failure? {
        return Failure(p.error);
      }
      events := events + [TimeEvent(p.value)];
      r := Success(());
    }

    /**
      `requestData` (call `id`): store the resolver under `${dataType}-${layer}`, replacing
      any resolver already there, and send a Request to the server; if the send fails, the
      key is removed and the call rejected.
    */
    method RequestData(dataType: nat, layer: nat, id: RequestId, delivered: bool)
      requires Valid() && id !in issued
      modifies this`issued, this`armedKey, this`requests, this`sequence, this`sent, this`settled, this`events
      ensures Valid()
      ensures issued == old(issued) + {id}
      ensures armedKey == old(armedKey)[id := RequestKey(dataType, layer)]
      ensures !old(server).Known? ==>
        && sequence == old(sequence) && sent == old(sent)
        && requests == old(requests) - {RequestKey(dataType, layer)}
        && settled == old(settled) + {id}
        && events == old(events) +
           [Rejected(id, SendFailed(if old(server).Unset? then ServerUnset else ServerNotDiscovered))]
      ensures old(server).Known? ==>
        && sequence == NextSeq(old(sequence))
        && sent == (if dataType <= 0xFF && layer <= 0xFF
                    then old(sent) + [Datagram(old(server).endpoint, OwnHeader(config, RequestPacket(dataType, layer), sequence),
                                               RequestPacket(dataType, layer))]
                    else old(sent))
      ensures old(server).Known? && dataType <= 0xFF && layer <= 0xFF && delivered ==>
        requests == old(requests)[RequestKey(dataType, layer) := id] && settled == old(settled) && events == old(events)
      ensures old(server).Known? && !(dataType <= 0xFF && layer <= 0xFF && delivered) ==>
        && requests == old(requests) - {RequestKey(dataType, layer)}
        && settled == old(settled) + {id}
        && events == old(events) +
           [Rejected(id, SendFailed(if dataType <= 0xFF && layer <= 0xFF then TransportFailed else EncodeFailed(ValueOutOfRange)))]
    {
      var key := RequestKey(dataType, layer);
      Store(key, id);
      var sr := SendServer(RequestPacket(dataType, layer), delivered);
      if sr.Failure? {
        Abandon(key, id, SendFailed(sr.error));
      }
    }

    /** Call `id` stores its resolver under `key`, replacing any resolver already there. */
    method Store(key: string, id: RequestId)
      requires Valid() && id !in issued
      modifies this`issued, this`armedKey, this`requests
      ensures Valid()
      ensures issued == old(issued) + {id} && armedKey == old(armedKey)[id := key] && requests == old(requests)[key := id]
    {
      issued := issued + {id};
      armedKey := armedKey[id := key];
      requests := requests[key := id];
    }

    /** `requests.delete(key)`, then the promise of call `id` is rejected. */
    method Abandon(key: string, id: RequestId, why: RejectReason)
      requires Valid() && id in issued
      modifies this`requests, this`settled, this`events
      ensures Valid()
      ensures requests == old(requests) - {key}
      ensures settled == old(settled) + {id}
      ensures events == if id in old(settled) then old(events) else old(events) + [Rejected(id, why)]
    {
      requests := requests - {key};
      Settle(id, Rejected(id, why));
    }

    /**
      The request timeout armed by call `id`, whose closure holds the key that call
      computed: if the key is still in the table, remove it and reject that call; otherwise
      nothing happens.
    */
    method RequestTimeout(dataType: nat, layer: nat, id: RequestId)
      requires Valid() && id in armedKey && armedKey[id] == RequestKey(dataType, layer)
      modifies this`requests, this`settled, this`events
      ensures Valid()
      ensures var key := RequestKey(dataType, layer);
        if key in old(requests) then
          && requests == old(requests) - {key}
          && settled == old(settled) + {id}
          && events == (if id in old(settled) then old(events) else old(events) + [Rejected(id, RequestTimedOut)])
        else
          requests == old(requests) && settled == old(settled) && events == old(events)
    {
      var key := RequestKey(dataType, layer);
      if key in requests {
        Abandon(key, id, RequestTimedOut);
      }
    }
  }
}
