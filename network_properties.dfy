/**
  What the codec guarantees: write-then-read round trips for every client-originated message,
  the fixed fields every header write produces, where each layout starts and ends, and the
  version-byte defect of the OptIn writer as the source has it.
*/
module NetworkProperties {
  import opened Wrappers
  import opened Wire
  import opened Network

  // ---------------------------------------------------------------------------
  // Header

  /**
    Whatever the node name, a header write stores major version 3 at byte 2, "TCN" at bytes
    4-6, and every numeric field little-endian at its offset: node id at 0-1, minor version
    at 3, message type at 7, sequence at 16, node type at 17, options at 18-19 and timestamp
    at 20-23. A name longer than 8 bytes spills into bytes 16-23, but the later writes of
    those fields overwrite it.
  */
  lemma HeaderFixedFields(b: seq<byte>, h: Header)
    requires |b| >= HeaderLength
    ensures var r := HeaderInto(b, h);
      && HeaderValid(r)
      && r[4..7] == [0x54, 0x43, 0x4E]
      && U16At(r, 0) == h.nodeId && r[3] == h.minorVersion && r[7] == h.messageType
      && r[16] == h.sequence && r[17] == h.nodeType
      && U16At(r, 18) == h.nodeOptions && U32At(r, 20) == h.timestamp
  {
    var r := HeaderInto(b, h);
    assert r[4..7] == [0x54, 0x43, 0x4E];
    assert AsciiDecode(r[4..7]) == MagicHeader;
  }

  /** A header of the same prefix decodes the same: `read` looks at bytes 0-23 only. */
  lemma DecodeHeaderReadsPrefix(b: seq<byte>, c: seq<byte>)
    requires |b| >= HeaderLength && |c| >= HeaderLength && b[..HeaderLength] == c[..HeaderLength]
    ensures DecodeHeader(b) == DecodeHeader(c)
    ensures HeaderValid(b) == HeaderValid(c)
  {
    assert b[8..16] == c[8..16] by {
      forall i | 8 <= i < 16 ensures b[i] == c[i] { assert b[..HeaderLength][i] == c[..HeaderLength][i]; }
    }
    assert b[4..7] == c[4..7] by {
      forall i | 4 <= i < 7 ensures b[i] == c[i] { assert b[..HeaderLength][i] == c[..HeaderLength][i]; }
    }
    assert forall i :: 0 <= i < HeaderLength ==> b[i] == c[i] by {
      forall i | 0 <= i < HeaderLength ensures b[i] == c[i] { assert b[..HeaderLength][i] == c[..HeaderLength][i]; }
    }
  }

  /** The name as written in bytes 8-15: its first eight characters, or all of it NUL-padded. */
  lemma HeaderNameBytes(b: seq<byte>, h: Header)
    requires |b| >= HeaderLength
    ensures HeaderInto(b, h)[8..16] == AsciiEncode(PadEnd(h.nodeName, NodeNameWidth)[..8])
  {
    var r := HeaderInto(b, h);
    var p := PadEnd(h.nodeName, NodeNameWidth);
    assert forall i :: 8 <= i < 16 ==> r[i] == p[i - 8] as int % 0x100;
  }

  /**
    Header round trip: with a name of at most 8 plain ASCII characters, reading back a
    written header gives every field that was written, and the header checks pass.
  */
  lemma HeaderRoundTrip(b: seq<byte>, h: Header)
    requires |b| >= HeaderLength && FitsField(h.nodeName, NodeNameWidth)
    ensures DecodeHeader(HeaderInto(b, h)) == Success(h)
    ensures HeaderValid(HeaderInto(b, h))
  {
    var r := HeaderInto(b, h);
    HeaderFixedFields(b, h);
    HeaderNameBytes(b, h);
    var p := PadEnd(h.nodeName, NodeNameWidth);
    assert p[..8] == p;
    FieldRoundTrip(Zeros(8), 0, h.nodeName, NodeNameWidth);
    assert SetText(Zeros(8), 0, p)[0..8] == AsciiEncode(p);
    assert TextField(r, 8, 16) == h.nodeName;
  }

  /**
    A name longer than 8 characters is not rejected (the length check only logs): the
    decoded name is its first 8 characters.
  */
  lemma HeaderLongNameTruncated(b: seq<byte>, h: Header)
    requires |b| >= HeaderLength && |h.nodeName| > NodeNameWidth && IsPlainAscii(h.nodeName)
    ensures DecodeHeader(HeaderInto(b, h)).Success?
    ensures DecodeHeader(HeaderInto(b, h)).value.nodeName == h.nodeName[..NodeNameWidth]
  {
    var r := HeaderInto(b, h);
    HeaderNameBytes(b, h);
    var s := h.nodeName[..NodeNameWidth];
    assert PadEnd(h.nodeName, NodeNameWidth)[..8] == s;
    assert IsPlainAscii(s) by {
      assert forall i :: 0 <= i < |s| ==> s[i] == h.nodeName[i];
    }
    PlainBytesRead(r, 8, s);
  }

  /**
    Bytes from 24 on: a name of up to 16 characters leaves them as they were; a longer one
    writes its characters from index 16 on into them, as far as the buffer reaches.
  */
  lemma HeaderFootprint(b: seq<byte>, h: Header)
    requires |b| >= HeaderLength
    ensures var r := HeaderInto(b, h);
      forall i :: HeaderLength <= i < |b| ==>
        r[i] == if i < 8 + |h.nodeName| then h.nodeName[i - 8] as int % 0x100 else b[i]
  {
  }

  // ---------------------------------------------------------------------------
  // OptIn

  /** The body writes of OptIn touch only bytes 24-63, given names that fit their fields. */
  lemma OptInFieldsFootprint(b: seq<byte>, o: OptInBody)
    requires |b| == OptInLength && |o.vendorName| <= AppTextWidth && |o.appName| <= AppTextWidth
    ensures var r := OptInFieldsInto(b, o);
      forall i :: 0 <= i < |b| && !(24 <= i < 64) ==> r[i] == b[i]
  {
  }

  /** The counters and names of an OptIn read back as written. */
  lemma OptInFieldsRoundTrip(b: seq<byte>, o: OptInBody)
    requires |b| == OptInLength && FitsField(o.vendorName, AppTextWidth) && FitsField(o.appName, AppTextWidth)
    ensures var r := OptInFieldsInto(b, o);
      && U16At(r, 24) == o.nodeCount && U16At(r, 26) == o.nodeListenerPort && U16At(r, 28) == o.uptime
      && TextField(r, 32, 48) == o.vendorName && TextField(r, 48, 64) == o.appName
  {
    var b1 := SetU16LE(b, 24, o.nodeCount);
    var b2 := SetU16LE(b1, 26, o.nodeListenerPort);
    var b3 := SetU16LE(b2, 28, o.uptime);
    var b4 := SetText(b3, 32, PadEnd(o.vendorName, AppTextWidth));
    var r := SetText(b4, 48, PadEnd(o.appName, AppTextWidth));
    assert r == OptInFieldsInto(b, o);
    FieldRoundTrip(b3, 32, o.vendorName, AppTextWidth);
    FieldRoundTrip(b4, 48, o.appName, AppTextWidth);
    assert r[32..48] == b4[32..48];
  }

  /**
    OptIn round trip (with the corrected writer): every field reads back, names of up to 16
    plain ASCII characters included, and the header bytes 0-23 are left as they were.
  */
  lemma OptInRoundTrip(b: seq<byte>, o: OptInBody)
    requires |b| == OptInLength && FitsField(o.vendorName, AppTextWidth) && FitsField(o.appName, AppTextWidth)
    ensures DecodeOptIn(OptInInto(b, o)) == o
    ensures OptInInto(b, o)[..HeaderLength] == b[..HeaderLength]
  {
    var f := OptInFieldsInto(b, o);
    var r := OptInInto(b, o);
    OptInFieldsRoundTrip(b, o);
    OptInFieldsFootprint(b, o);
    assert r[24..64] == f[24..64];
    assert r[32..48] == f[32..48] && r[48..64] == f[48..64];
  }

  /**
    The OptIn writer as the source has it, with the version numbers 1, 1, 1 that the client
    announces: bytes 64-66 are never written, and the constants 64, 65, 66 are written in
    turn to byte 1, leaving 66 in the high byte of the node id.
  */
  lemma OptInAsWrittenVersions(b: seq<byte>, o: OptInBody)
    requires |b| == OptInLength && |o.vendorName| <= AppTextWidth && |o.appName| <= AppTextWidth
    requires o.majorVersion == 1 && o.minorVersion == 1 && o.bugVersion == 1
    ensures var r := OptInIntoAsWritten(b, o);
      && r.Success?
      && r.value[64..67] == b[64..67]
      && r.value[1] == 66
  {
    OptInFieldsFootprint(b, o);
  }

  /**
    What a peer reads from the OptIn datagram the client announces (versions 1, 1, 1), as the
    source writes it: the header checks pass and the header reads back with node id high
    byte 66 instead of the one written; the body reads back with version 0.0.0 and every
    other field as written.
  */
  lemma AnnouncedOptInAsWritten(h: Header, o: OptInBody)
    requires FitsField(h.nodeName, NodeNameWidth)
    requires FitsField(o.vendorName, AppTextWidth) && FitsField(o.appName, AppTextWidth)
    requires o.majorVersion == 1 && o.minorVersion == 1 && o.bugVersion == 1
    ensures Encode(h, OptInPacket(o)).Success?
    ensures var d := Encode(h, OptInPacket(o)).value;
      && |d| == OptInLength
      && HeaderValid(d)
      && DecodeHeader(d) == Success(h.(nodeId := h.nodeId % 0x100 + 66 * 0x100))
      && Read(OptInCodec, d) == Success(OptInPacket(o.(majorVersion := 0, minorVersion := 0, bugVersion := 0)))
  {
    var z := Zeros(OptInLength);
    var b := HeaderInto(z, h);
    HeaderRoundTrip(z, h);
    OptInFieldsFootprint(b, o);
    OptInRoundTrip(b, o);
    var f := OptInFieldsInto(b, o);
    var d := OptInIntoAsWritten(b, o).value;
    var e := OptInInto(b, o);
    assert d == Encode(h, OptInPacket(o)).value;
    assert forall i :: 0 <= i < OptInLength && i != 1 ==> d[i] == f[i];
    assert d[1] == 66;
    HeaderByteOneOverwritten(b, d, h);
    assert forall i :: 24 <= i < 64 ==> d[i] == e[i];
    OptInVersionsZero(e, d);
  }

  /**
    A buffer that differs from a written header only in byte 1, which holds 66, still passes
    the header checks and reads back to that header with 66 as the high byte of the node id.
  */
  lemma HeaderByteOneOverwritten(b: seq<byte>, d: seq<byte>, h: Header)
    requires |b| == |d| >= HeaderLength && HeaderValid(b) && DecodeHeader(b) == Success(h)
    requires d[1] == 66 && forall i :: 0 <= i < HeaderLength && i != 1 ==> d[i] == b[i]
    ensures HeaderValid(d)
    ensures DecodeHeader(d) == Success(h.(nodeId := h.nodeId % 0x100 + 66 * 0x100))
  {
    assert d[2] == b[2] && d[4] == b[4] && d[5] == b[5] && d[6] == b[6];
    assert d[8..16] == b[8..16];
    assert U16At(d, 0) == h.nodeId % 0x100 + 66 * 0x100 by {
      BaseDigits(b[0], 66);
    }
  }

  /**
    An OptIn buffer whose bytes 24-63 are those of a written OptIn and whose bytes 64-66 are
    zero reads back to that OptIn with version 0.0.0.
  */
  lemma OptInVersionsZero(e: seq<byte>, d: seq<byte>)
    requires |e| == |d| == OptInLength
    requires (forall i :: 24 <= i < 64 ==> d[i] == e[i]) && d[64] == 0 && d[65] == 0 && d[66] == 0
    ensures DecodeOptIn(d) == DecodeOptIn(e).(majorVersion := 0, minorVersion := 0, bugVersion := 0)
  {
    assert d[32..48] == e[32..48] && d[48..64] == e[48..64];
  }


  // ---------------------------------------------------------------------------
  // OptOut, Request and Data

  /** OptOut round trip; bytes 0-23 are left as they were. */
  lemma OptOutRoundTrip(b: seq<byte>, o: OptOutBody)
    requires |b| == OptOutLength
    ensures DecodeOptOut(OptOutInto(b, o)) == o
    ensures OptOutInto(b, o)[..HeaderLength] == b[..HeaderLength]
  {
  }

  /**
    Request and Data round trip: values in byte range read back from bytes 24 and 25 as the
    Request or the Data packet class reads them; bytes 0-23 are left as they were.
  */
  lemma TypeLayerRoundTrip(b: seq<byte>, dataType: nat, layer: nat)
    requires |b| == RequestLength && dataType <= 0xFF && layer <= 0xFF
    ensures TypeLayerInto(b, dataType, layer).Success?
    ensures Read(RequestCodec, TypeLayerInto(b, dataType, layer).value) == Success(RequestPacket(dataType, layer))
    ensures Read(DataCodec, TypeLayerInto(b, dataType, layer).value) == Success(DataPacket(dataType, layer))
    ensures TypeLayerInto(b, dataType, layer).value[..HeaderLength] == b[..HeaderLength]
  {
  }

  // ---------------------------------------------------------------------------
  // Receive-only layouts

  /** Bytes a Status read uses: counters 24-27, layer sources to track ids 34-84, names 172-299. */
  predicate StatusFieldByte(i: int)
  {
    (24 <= i < 28) || (34 <= i < 85) || (172 <= i < StatusLength)
  }

  /** A Status read depends on its field bytes only; bytes 28-33 and 85-171 are ignored. */
  lemma StatusReadsOnlyFields(b: seq<byte>, c: seq<byte>)
    requires |b| == StatusLength && |c| == StatusLength
    requires forall i :: 0 <= i < StatusLength && StatusFieldByte(i) ==> b[i] == c[i]
    ensures DecodeStatus(b) == DecodeStatus(c)
  {
    var sb, sc := DecodeStatus(b), DecodeStatus(c);
    assert sb.layerSource == sc.layerSource;
    assert sb.layerStatus == sc.layerStatus;
    assert sb.trackID == sc.trackID;
    forall n | 0 <= n < Layers ensures sb.layerName[n] == sc.layerName[n] {
      assert b[172 + 16 * n..172 + 16 * (n + 1)] == c[172 + 16 * n..172 + 16 * (n + 1)];
    }
    assert sb.layerName == sc.layerName;
  }

  /**
    A Metadata read succeeds on a buffer of the declared length 548, and depends only on
    bytes 29-546: artist 29-284, title 285-540, key 541-542, track id 543-546.
  */
  lemma MetadataReadsOnlyFields(b: seq<byte>, c: seq<byte>, dataType: byte, layer: byte)
    requires |b| == MetadataLength && |c| >= MetadataExtent
    requires forall i :: 29 <= i < MetadataExtent ==> b[i] == c[i]
    ensures DecodeMetadata(b, dataType, layer).Success?
    ensures DecodeMetadata(b, dataType, layer) == DecodeMetadata(c, dataType, layer)
  {
    assert b[29..285] == c[29..285];
    assert b[285..541] == c[285..541];
  }

  // ---------------------------------------------------------------------------
  // Whole datagrams

  /** Text of every field of a body fits its width, so that the body reads back. */
  predicate TextFits(body: Body)
  {
    body.OptInPacket? ==>
      FitsField(body.optIn.vendorName, AppTextWidth) && FitsField(body.optIn.appName, AppTextWidth)
  }

  /**
    Round trip of a whole datagram as `sendPacket` is meant to build it (the corrected OptIn
    writer): the receiver's header read gives back the header, the header checks pass, the
    length matches the class's `length()`, and the class's `read()` gives back the body.
  */
  lemma DatagramRoundTrip(h: Header, body: Body)
    requires body.OptInPacket? || Encodable(body)
    requires FitsField(h.nodeName, NodeNameWidth) && TextFits(body)
    ensures EncodeIntended(h, body).Success?
    ensures var d := EncodeIntended(h, body).value;
      && |d| == CodecOf(body).Length()
      && HeaderValid(d)
      && DecodeHeader(d) == Success(h)
      && Read(CodecOf(body), d) == Success(body)
  {
    var buf := HeaderInto(Zeros(Length(body)), h);
    HeaderRoundTrip(Zeros(Length(body)), h);
    var d := EncodeIntended(h, body).value;
    match body {
      case OptInPacket(o) => OptInRoundTrip(buf, o);
      case OptOutPacket(o) => OptOutRoundTrip(buf, o);
      case RequestPacket(t, l) => TypeLayerRoundTrip(buf, t, l);
      case DataPacket(t, l) => TypeLayerRoundTrip(buf, t, l);
    }
    assert d[..HeaderLength] == buf[..HeaderLength];
    DecodeHeaderReadsPrefix(d, buf);
  }

  /**
    The same round trip for what `sendPacket` builds as the source has it, for every class
    but OptIn (whose datagram `AnnouncedOptInAsWritten` describes).
  */
  lemma SentDatagramRoundTrip(h: Header, body: Body)
    requires Encodable(body) && !body.OptInPacket?
    requires FitsField(h.nodeName, NodeNameWidth)
    ensures Encode(h, body).Success?
    ensures var d := Encode(h, body).value;
      && |d| == CodecOf(body).Length()
      && HeaderValid(d)
      && DecodeHeader(d) == Success(h)
      && Read(CodecOf(body), d) == Success(body)
  {
    DatagramRoundTrip(h, body);
  }
}
