/** Clipboard events: validation, the text event's wire form, and the transfer manifest. */
module Event {
  import opened Options
  import opened Text
  import opened Json

  const TEXT_EVENT_NAME := "clipboard.text.v1"
  const TRANSFER_EVENT_NAME := "clipboard.transfer.v1"
  const EVENT_VERSION := 1
  const MAX_EVENT_ENVELOPE_BYTES := 4096
  const MAX_EVENT_ID_BYTES := 128

  datatype Digest = Digest(size: nat, sha256: string)

  datatype TextEvent = TextEvent(
    version: int, eventID: string, originNode: nat, originInstanceID: string, originDevice: string,
    text: string, size: nat, sha256: string)
  {
    /** Uses the event's instance as it stands: normalising has trimmed it. */
    predicate IsLocalOrigin(nodeID: nat, instanceID: string) {
      || (nodeID != 0 && originNode == nodeID)
      || (TrimSpace(instanceID) != "" && originInstanceID == TrimSpace(instanceID))
    }
  }

  // ---------------------------------------------------------------- texts

  function InspectTextContent(hash: HashFn, raw: RawText): (r: Option<Digest>)
    ensures r.Some? <==> raw.Utf8? && raw.text != "" && (0 as char) !in raw.text
    ensures r.Some? ==> r.value == Digest(Utf8Len(raw.text), hash(raw.text))
  {
    match raw
    case NotUtf8 => None
    case Utf8(text) =>
      if text == "" || (0 as char) in text then None else Some(Digest(Utf8Len(text), hash(text)))
  }

  function InspectText(hash: HashFn, raw: RawText, maxInlineBytes: int): (r: Option<Digest>)
    ensures r.Some? <==> InspectTextContent(hash, raw).Some? && Utf8Len(raw.text) <= maxInlineBytes
    ensures r.Some? ==> r == InspectTextContent(hash, raw)
  {
    if maxInlineBytes <= 0 then None
    else match InspectTextContent(hash, raw)
      case None => None
      case Some(digest) => if digest.size > maxInlineBytes then None else Some(digest)
  }

  // ---------------------------------------------------------------- text events

  function Normalize(hash: HashFn, e: TextEvent, maxInlineBytes: int): Option<TextEvent> {
    var id := TrimSpace(e.eventID);
    var instance := TrimSpace(e.originInstanceID);
    if maxInlineBytes <= 0 || e.version != EVENT_VERSION then None
    else if id == "" || Utf8Len(id) > MAX_EVENT_ID_BYTES then None
    else if e.originNode == 0 || instance == "" then None
    else match InspectText(hash, Utf8(e.text), maxInlineBytes)
      case None => None
      case Some(digest) =>
        Some(TextEvent(e.version, id, e.originNode, instance, TrimSpace(e.originDevice), e.text, digest.size,
            digest.sha256))
  }

  lemma NormalizeIdempotent(hash: HashFn, e: TextEvent, maxInlineBytes: int)
    requires Normalize(hash, e, maxInlineBytes).Some?
    ensures var n := Normalize(hash, e, maxInlineBytes).value;
            Normalize(hash, n, maxInlineBytes) == Some(n) && n.eventID != "" && Trimmed(n.eventID)
  {
  }

  /** `newClipboardTextEventV1WithDigest`; `newID` is what the identifier source returned. */
  function NewTextEvent(hash: HashFn, text: string, digest: Digest, nodeID: nat, instanceID: string, device: string,
                        maxInlineBytes: int, newID: Option<string>): Option<TextEvent> {
    if nodeID == 0 || TrimSpace(instanceID) == "" then None
    else match newID
      case None => None
      case Some(id) =>
        Normalize(hash, TextEvent(EVENT_VERSION, TrimSpace(id), nodeID, TrimSpace(instanceID), TrimSpace(device), text,
                                  digest.size, digest.sha256), maxInlineBytes)
  }

  /** The literal pieces between the values of an encoded event. */
  datatype Layout = Layout(version: string, id: string, from: string, instance: string, device: string, text: string,
                           end: string)

  const LAYOUT := Layout("{\"v\":", ",\"id\":", ",\"from\":", ",\"instance\":", ",\"device\":", ",\"text\":", "}")

  /** Numbers are followed by a non-digit, and an absent device cannot be mistaken for a present one. */
  ghost predicate Readable(l: Layout) {
    && l.id != "" && !('0' <= l.id[0] <= '9')
    && l.instance != "" && !('0' <= l.instance[0] <= '9')
    && |l.device| > 2 && |l.text| > 2 && l.device[2] != l.text[2]
  }

  function DeviceField(l: Layout, device: string): string {
    if device == "" then "" else l.device + Quote(device)
  }

  function EncodeWith(l: Layout, e: TextEvent): string {
    l.version + (FormatInt(e.version) + (l.id + (Quote(e.eventID) + (l.from + (FormatInt(e.originNode) +
    (l.instance + (Quote(e.originInstanceID) + (DeviceField(l, e.originDevice) +
    (l.text + (Quote(e.text) + l.end))))))))))
  }

  /** `json.Marshal` of a normalised event; the derived size and digest are not sent. */
  function Encode(e: TextEvent): string {
    EncodeWith(LAYOUT, e)
  }

  function Marshal(hash: HashFn, e: TextEvent, maxInlineBytes: int): Option<string> {
    match Normalize(hash, e, maxInlineBytes)
    case None => None
    case Some(n) => Some(Encode(n))
  }

  /**
   Received bytes: the text they spell, and what `json.Unmarshal` makes of them as a text event and
   as a manifest. The fields are independent, so whatever the decoder does is covered.
   */
  datatype Payload = Payload(wire: string, asText: Option<TextEvent>, asManifest: Option<Manifest>)

  function Parse(hash: HashFn, payload: Payload, maxInlineBytes: int): Option<TextEvent> {
    if payload.wire == "" then None
    else if Utf8Len(payload.wire) > maxInlineBytes + MAX_EVENT_ENVELOPE_BYTES then None
    else match payload.asText
      case None => None
      case Some(e) => Normalize(hash, e, maxInlineBytes)
  }

  /** Which received bytes are a text event, and what is made of them: trimmed, with its own size and digest. */
  lemma ParsesExactly(hash: HashFn, payload: Payload, maxInlineBytes: int)
    ensures var parsed := Parse(hash, payload, maxInlineBytes);
            && (parsed.Some? <==>
                  && payload.wire != "" && Utf8Len(payload.wire) <= maxInlineBytes + MAX_EVENT_ENVELOPE_BYTES
                  && payload.asText.Some?
                  && var e := payload.asText.value;
                     && e.version == EVENT_VERSION && e.originNode != 0 && TrimSpace(e.originInstanceID) != ""
                     && 1 <= Utf8Len(TrimSpace(e.eventID)) <= MAX_EVENT_ID_BYTES
                     && e.text != "" && (0 as char) !in e.text && Utf8Len(e.text) <= maxInlineBytes)
            && (parsed.Some? ==>
                  var e, n := payload.asText.value, parsed.value;
                  && n.version == e.version && n.originNode == e.originNode && n.text == e.text
                  && n.eventID == TrimSpace(e.eventID) && n.originInstanceID == TrimSpace(e.originInstanceID)
                  && n.originDevice == TrimSpace(e.originDevice)
                  && n.size == Utf8Len(e.text) && n.sha256 == hash(e.text))
  {
    hide TrimSpace;
    if payload.asText.Some? {
      var id := TrimSpace(payload.asText.value.eventID);
      assert Utf8Len(id) == 0 <==> id == "";
    }
  }

  // ---------------------------------------------------------------- a reader for the wire form

  function Expect(piece: string, s: string): Option<string> {
    if |piece| <= |s| && s[..|piece|] == piece then Some(s[|piece|..]) else None
  }

  function ReadField(piece: string, s: string): Option<(string, string)> {
    match Expect(piece, s)
    case None => None
    case Some(rest) => ReadString(rest)
  }

  function ReadNumber(piece: string, s: string): Option<(int, string)> {
    match Expect(piece, s)
    case None => None
    case Some(rest) => ReadInt(rest)
  }

  function DecodeTail(l: Layout, v: int, id: string, from: nat, instance: string, device: string,
                      s: string): Option<TextEvent> {
    match ReadField(l.text, s)
    case None => None
    case Some((text, rest)) =>
      if rest == l.end then Some(TextEvent(v, id, from, instance, device, text, 0, "")) else None
  }

  function DecodeDevice(l: Layout, v: int, id: string, from: nat, instance: string, s: string): Option<TextEvent> {
    match Expect(l.device, s)
    case None => DecodeTail(l, v, id, from, instance, "", s)
    case Some(_) =>
      match ReadField(l.device, s)
      case None => None
      case Some((device, rest)) => DecodeTail(l, v, id, from, instance, device, rest)
  }

  function DecodeOrigin(l: Layout, v: int, id: string, s: string): Option<TextEvent> {
    match ReadNumber(l.from, s)
    case None => None
    case Some((from, rest)) =>
      if from < 0 then None
      else match ReadField(l.instance, rest)
        case None => None
        case Some((instance, tail)) => DecodeDevice(l, v, id, from, instance, tail)
  }

  /** Reads events laid out as the encoder lays them out. */
  function DecodeWith(l: Layout, s: string): Option<TextEvent> {
    match ReadNumber(l.version, s)
    case None => None
    case Some((v, rest)) =>
      match ReadField(l.id, rest)
      case None => None
      case Some((id, tail)) => DecodeOrigin(l, v, id, tail)
  }

  function Decode(s: string): Option<TextEvent> {
    DecodeWith(LAYOUT, s)
  }

  /** The part of an event that travels. */
  function Sent(e: TextEvent): TextEvent {
    e.(size := 0, sha256 := "")
  }

  lemma ExpectPiece(piece: string, rest: string)
    ensures Expect(piece, piece + rest) == Some(rest)
  {
  }

  lemma FieldRoundTrip(piece: string, x: string, rest: string)
    ensures ReadField(piece, piece + (Quote(x) + rest)) == Some((x, rest))
  {
    ExpectPiece(piece, Quote(x) + rest);
    StringRoundTrip(x, rest);
  }

  lemma NumberRoundTrip(piece: string, n: int, rest: string)
    requires rest != "" && !('0' <= rest[0] <= '9')
    ensures ReadNumber(piece, piece + (FormatInt(n) + rest)) == Some((n, rest))
  {
    ExpectPiece(piece, FormatInt(n) + rest);
    IntRoundTrip(n, rest);
  }

  lemma TailRoundTrip(l: Layout, v: int, id: string, from: nat, instance: string, device: string, text: string)
    ensures DecodeTail(l, v, id, from, instance, device, l.text + (Quote(text) + l.end)) ==
            Some(TextEvent(v, id, from, instance, device, text, 0, ""))
  {
    FieldRoundTrip(l.text, text, l.end);
  }

  lemma DeviceRoundTrip(l: Layout, v: int, id: string, from: nat, instance: string, device: string, text: string)
    requires Readable(l)
    ensures DecodeDevice(l, v, id, from, instance, DeviceField(l, device) + (l.text + (Quote(text) + l.end))) ==
            Some(TextEvent(v, id, from, instance, device, text, 0, ""))
  {
    var tail := l.text + (Quote(text) + l.end);
    TailRoundTrip(l, v, id, from, instance, device, text);
    if device == "" {
      assert "" + tail == tail;
      assert tail[2] == l.text[2];
      if |l.device| <= |tail| { assert tail[..|l.device|][2] == tail[2]; }
    } else {
      assert DeviceField(l, device) + tail == l.device + (Quote(device) + tail);
      ExpectPiece(l.device, Quote(device) + tail);
      FieldRoundTrip(l.device, device, tail);
    }
  }

  lemma OriginRoundTrip(l: Layout, v: int, id: string, from: nat, instance: string, device: string, text: string)
    requires Readable(l)
    ensures DecodeOrigin(l, v, id, l.from + (FormatInt(from) + (l.instance + (Quote(instance) +
              (DeviceField(l, device) + (l.text + (Quote(text) + l.end))))))) ==
            Some(TextEvent(v, id, from, instance, device, text, 0, ""))
  {
    var tail := DeviceField(l, device) + (l.text + (Quote(text) + l.end));
    var rest := l.instance + (Quote(instance) + tail);
    assert rest[0] == l.instance[0];
    NumberRoundTrip(l.from, from, rest);
    FieldRoundTrip(l.instance, instance, tail);
    DeviceRoundTrip(l, v, id, from, instance, device, text);
  }

  lemma WireRoundTripWith(l: Layout, e: TextEvent)
    requires Readable(l)
    ensures DecodeWith(l, EncodeWith(l, e)) == Some(Sent(e))
  {
    var tail := l.from + (FormatInt(e.originNode) + (l.instance + (Quote(e.originInstanceID) +
                (DeviceField(l, e.originDevice) + (l.text + (Quote(e.text) + l.end))))));
    var rest := l.id + (Quote(e.eventID) + tail);
    assert rest[0] == l.id[0];
    NumberRoundTrip(l.version, e.version, rest);
    FieldRoundTrip(l.id, e.eventID, tail);
    OriginRoundTrip(l, e.version, e.eventID, e.originNode, e.originInstanceID, e.originDevice, e.text);
  }

  lemma LayoutReadable()
    ensures Readable(LAYOUT)
  {
    assert LAYOUT.device[2] == 'd' && LAYOUT.text[2] == 't';
  }

  /** Every event survives the wire, up to the fields that are not sent. */
  lemma WireRoundTrip(e: TextEvent)
    ensures Decode(Encode(e)) == Some(Sent(e))
  {
    LayoutReadable();
    WireRoundTripWith(LAYOUT, e);
  }

  /** The bytes of an encoded event, read by a decoder that reads what the encoder wrote. */
  ghost predicate ReadsBack(payload: Payload, e: TextEvent) {
    payload.wire == Encode(e) && payload.asText == Some(Sent(e))
  }

  /** A marshalled event parses back to its normal form exactly when it fits the envelope. */
  lemma TextEventRoundTrip(hash: HashFn, e: TextEvent, maxInlineBytes: int, payload: Payload)
    requires Normalize(hash, e, maxInlineBytes).Some?
    requires ReadsBack(payload, Normalize(hash, e, maxInlineBytes).value)
    ensures var n := Normalize(hash, e, maxInlineBytes).value;
            && Marshal(hash, e, maxInlineBytes) == Some(payload.wire)
            && Parse(hash, payload, maxInlineBytes) ==
               if Utf8Len(Encode(n)) <= maxInlineBytes + MAX_EVENT_ENVELOPE_BYTES then Some(n) else None
  {
    hide Encode, Utf8Len;
    NormalizeIdempotent(hash, e, maxInlineBytes);
    var n := Normalize(hash, e, maxInlineBytes).value;
    EncodedNonEmpty(n);
  }

  lemma EncodedNonEmpty(e: TextEvent)
    ensures Encode(e) != ""
  {
    assert |LAYOUT.version| == 5;
  }

  /** What the reader above receives when a string arrives. */
  function Received(wire: string): Payload {
    Payload(wire, Decode(wire), None)
  }

  /** The same with that reader: no assumption on the decoder is left. */
  lemma TextEventRoundTripConcrete(hash: HashFn, e: TextEvent, maxInlineBytes: int)
    requires Normalize(hash, e, maxInlineBytes).Some?
    ensures var n := Normalize(hash, e, maxInlineBytes).value;
            Parse(hash, Received(Marshal(hash, e, maxInlineBytes).value), maxInlineBytes) ==
            if Utf8Len(Encode(n)) <= maxInlineBytes + MAX_EVENT_ENVELOPE_BYTES then Some(n) else None
  {
    hide Encode, Utf8Len, Decode;
    var n := Normalize(hash, e, maxInlineBytes).value;
    WireRoundTrip(n);
    TextEventRoundTrip(hash, e, maxInlineBytes, Received(Encode(n)));
  }

  /**
   The size and digest are not sent, yet every receiver that accepts the event finds those the sender's
   inspection found, whatever the two limits.
   */
  lemma DigestSurvivesWire(hash: HashFn, raw: RawText, digest: Digest, nodeID: nat, instanceID: string, device: string,
                           maxInlineBytes: int, newID: Option<string>, e: TextEvent, theirMax: int, received: TextEvent)
    requires InspectTextContent(hash, raw) == Some(digest)
    requires NewTextEvent(hash, raw.text, digest, nodeID, instanceID, device, maxInlineBytes, newID) == Some(e)
    requires Marshal(hash, e, maxInlineBytes).Some?
    requires Parse(hash, Received(Marshal(hash, e, maxInlineBytes).value), theirMax) == Some(received)
    ensures received.text == raw.text && Digest(received.size, received.sha256) == digest
  {
    hide Encode, Decode, TrimSpace, Utf8Len;
    WireRoundTrip(Normalize(hash, e, maxInlineBytes).value);
  }

  // ---------------------------------------------------------------- how long an encoded event is

  function Overhead(l: Layout): nat {
    Utf8Len(l.version) + Utf8Len(l.id) + Utf8Len(l.from) + Utf8Len(l.instance) + Utf8Len(l.text) + Utf8Len(l.end)
  }

  /** The bytes from the instance on. */
  lemma SecondHalfLen(l: Layout, e: TextEvent)
    ensures Utf8Len(l.instance + (Quote(e.originInstanceID) + (DeviceField(l, e.originDevice) +
                    (l.text + (Quote(e.text) + l.end))))) ==
            Utf8Len(l.instance) + Utf8Len(Quote(e.originInstanceID)) + Utf8Len(DeviceField(l, e.originDevice))
            + Utf8Len(l.text) + Utf8Len(Quote(e.text)) + Utf8Len(l.end)
  {
    var text := Quote(e.text) + l.end;
    var device := DeviceField(l, e.originDevice) + (l.text + text);
    Utf8LenConcat(l.instance, Quote(e.originInstanceID) + device);
    Utf8LenConcat(Quote(e.originInstanceID), device);
    Utf8LenConcat(DeviceField(l, e.originDevice), l.text + text);
    Utf8LenConcat(l.text, text);
    Utf8LenConcat(Quote(e.text), l.end);
  }

  lemma FirstHalfLen(l: Layout, version: int, id: string, node: nat, rest: string)
    ensures Utf8Len(l.version + (FormatInt(version) + (l.id + (Quote(id) + (l.from + (FormatInt(node) + rest)))))) ==
            Utf8Len(l.version) + |FormatInt(version)| + Utf8Len(l.id) + Utf8Len(Quote(id)) + Utf8Len(l.from)
            + |FormatInt(node)| + Utf8Len(rest)
  {
    var from := l.from + (FormatInt(node) + rest);
    Utf8LenConcat(l.version, FormatInt(version) + (l.id + (Quote(id) + from)));
    Utf8LenConcat(FormatInt(version), l.id + (Quote(id) + from));
    Utf8LenConcat(l.id, Quote(id) + from);
    Utf8LenConcat(Quote(id), from);
    Utf8LenConcat(l.from, FormatInt(node) + rest);
    Utf8LenConcat(FormatInt(node), rest);
    AsciiLen(FormatInt(version));
    AsciiLen(FormatInt(node));
  }

  function FieldsLen(e: TextEvent): nat {
    |FormatInt(e.version)| + |FormatInt(e.originNode)|
    + Utf8Len(EscapeAll(e.eventID)) + Utf8Len(EscapeAll(e.originInstanceID)) + Utf8Len(EscapeAll(e.text))
    + if e.originDevice == "" then 0 else Utf8Len(EscapeAll(e.originDevice)) + 12
  }

  lemma EncodedLenWith(l: Layout, e: TextEvent)
    requires Utf8Len(l.device) == 10
    ensures Utf8Len(EncodeWith(l, e)) == Overhead(l) + 6 + FieldsLen(e)
  {
    FirstHalfLen(l, e.version, e.eventID, e.originNode,
                 l.instance + (Quote(e.originInstanceID) + (DeviceField(l, e.originDevice) +
                   (l.text + (Quote(e.text) + l.end)))));
    SecondHalfLen(l, e);
    QuoteLen(e.eventID);
    QuoteLen(e.originInstanceID);
    QuoteLen(e.text);
    if e.originDevice != "" {
      Utf8LenConcat(l.device, Quote(e.originDevice));
      QuoteLen(e.originDevice);
    }
  }

  lemma PieceLen()
    ensures Utf8Len(LAYOUT.version) == 5 && Utf8Len(LAYOUT.id) == 6 && Utf8Len(LAYOUT.end) == 1
  {
    AsciiLen(LAYOUT.version);
    AsciiLen(LAYOUT.id);
    AsciiLen(LAYOUT.end);
  }

  lemma InstancePieceLen()
    ensures Utf8Len(LAYOUT.instance) == 12
  {
    AsciiLen(LAYOUT.instance);
  }

  lemma DevicePieceLen()
    ensures Utf8Len(LAYOUT.device) == 10
  {
    AsciiLen(LAYOUT.device);
  }

  lemma TextPieceLen()
    ensures Utf8Len(LAYOUT.text) == 8
  {
    AsciiLen(LAYOUT.text);
  }

  lemma FromPieceLen()
    ensures Utf8Len(LAYOUT.from) == 8
  {
    AsciiLen(LAYOUT.from);
  }

  /** The length of an encoded event, exactly. */
  lemma EncodedLen(e: TextEvent)
    ensures Utf8Len(Encode(e)) == 46 + FieldsLen(e)
  {
    DevicePieceLen();
    EncodedLenWith(LAYOUT, e);
    PieceLen();
    InstancePieceLen();
    TextPieceLen();
    FromPieceLen();
  }

  function Pow10(k: nat): nat {
    if k == 0 then 1 else 10 * Pow10(k - 1)
  }

  lemma {:induction false} DigitsLen(n: nat, k: nat)
    requires 1 <= k && n < Pow10(k)
    ensures |Digits(n)| <= k
  {
    if n >= 10 {
      assert Pow10(1) == 10 * Pow10(0);
      DigitsLen(n / 10, k - 1);
    }
  }

  /** A node number is a 32-bit value, so at most ten digits. */
  lemma NodeDigits(n: nat)
    requires n < 0x1_0000_0000
    ensures |Digits(n)| <= 10
  {
    assert Pow10(2) == 100 && Pow10(4) == 10000;
    assert Pow10(6) == 1000000 && Pow10(8) == 100000000;
    assert Pow10(10) == 10000000000;
    DigitsLen(n, 10);
  }

  /**
   Enough for a round trip: the escaped text is within the inline limit, and the escaped identifier
   fields together stay within the envelope less 69 bytes of punctuation and numbers.
   */
  lemma ShortFieldsFit(hash: HashFn, e: TextEvent, maxInlineBytes: int)
    requires Normalize(hash, e, maxInlineBytes) == Some(e)
    requires e.originNode < 0x1_0000_0000
    requires Utf8Len(EscapeAll(e.text)) <= maxInlineBytes
    requires Utf8Len(EscapeAll(e.eventID)) + Utf8Len(EscapeAll(e.originInstanceID)) + Utf8Len(EscapeAll(e.originDevice))
             <= MAX_EVENT_ENVELOPE_BYTES - 69
    ensures Parse(hash, Received(Encode(e)), maxInlineBytes) == Some(e)
  {
    hide Encode, EscapeAll, Utf8Len;
    EncodedLen(e);
    NodeDigits(e.originNode);
    DigitsLen(e.version, 1);
    TextEventRoundTripConcrete(hash, e, maxInlineBytes);
  }

  lemma {:induction false} AngleBracketsLen(s: string)
    requires forall i :: 0 <= i < |s| ==> s[i] == '<'
    ensures Utf8Len(s) == |s| && Utf8Len(EscapeAll(s)) == 6 * |s|
  {
    if s != "" {
      AngleBracketsLen(s[1..]);
      Utf8LenConcat(Escape('<'), EscapeAll(s[1..]));
      AsciiLen(Escape('<'));
    }
  }

  /**
   The inline limit does not imply the envelope: from 820 bytes on, a text of as many '<' as the
   limit allows is accepted for publishing and refused by every receiver with the same limit.
   */
  lemma InLimitTextMayNotParse(hash: HashFn, id: string, node: nat, instance: string, maxInlineBytes: nat)
    requires 820 <= maxInlineBytes
    requires node != 0 && id != "" && Trimmed(id) && Utf8Len(id) <= MAX_EVENT_ID_BYTES
    requires instance != "" && Trimmed(instance)
    ensures var text := seq(maxInlineBytes, _ => '<');
            var e := TextEvent(EVENT_VERSION, id, node, instance, "", text, maxInlineBytes, hash(text));
            && InspectText(hash, Utf8(text), maxInlineBytes).Some?
            && Normalize(hash, e, maxInlineBytes) == Some(e)
            && Parse(hash, Received(Marshal(hash, e, maxInlineBytes).value), maxInlineBytes) == None
  {
    hide Encode, EscapeAll;
    var text := seq(maxInlineBytes, _ => '<');
    var e := TextEvent(EVENT_VERSION, id, node, instance, "", text, maxInlineBytes, hash(text));
    AngleBracketsLen(text);
    assert text[0] == '<';
    assert Normalize(hash, e, maxInlineBytes) == Some(e);
    EncodedLen(e);
    TextEventRoundTripConcrete(hash, e, maxInlineBytes);
  }

  // ---------------------------------------------------------------- transfer manifests

  datatype TransferReference = TransferReference(provider: string, opaqueID: string, uri: string)

  datatype Manifest = Manifest(
    version: int, eventID: string, originNode: nat, originInstanceID: string, originDevice: string,
    contentType: string, encoding: string, size: int, sha256: string, references: seq<TransferReference>, ts: int)
  {
    /** As for text events, but a manifest's instance is never trimmed. */
    predicate IsLocalOrigin(nodeID: nat, instanceID: string) {
      || (nodeID != 0 && originNode == nodeID)
      || (TrimSpace(instanceID) != "" && originInstanceID == TrimSpace(instanceID))
    }
  }

  function AsciiLower(c: char): char {
    if 'A' <= c <= 'Z' then (c as int + 32) as char else c
  }

  predicate IsUtf8Label(s: string) {
    && |s| == 5
    && AsciiLower(s[0]) == 'u' && AsciiLower(s[1]) == 't' && AsciiLower(s[2]) == 'f' && s[3] == '-' && s[4] == '8'
  }

  predicate UsableReference(r: TransferReference) {
    TrimSpace(r.provider) != "" && (TrimSpace(r.opaqueID) != "" || TrimSpace(r.uri) != "")
  }

  predicate ValidManifest(m: Manifest) {
    && m.version == EVENT_VERSION
    && TrimSpace(m.eventID) != "" && Utf8Len(m.eventID) <= MAX_EVENT_ID_BYTES
    && m.originNode != 0
    && TrimSpace(m.originInstanceID) != ""
    && m.contentType == "text/plain"
    && IsUtf8Label(m.encoding)
    && m.size > 0
    && IsDigest(m.sha256)
    && m.references != []
    && (forall i :: 0 <= i < |m.references| ==> UsableReference(m.references[i]))
    && m.ts > 0
  }

  function ParseManifest(payload: Payload): Option<Manifest> {
    if payload.wire == "" || Utf8Len(payload.wire) > MAX_EVENT_ENVELOPE_BYTES * 2 then None
    else match payload.asManifest
      case None => None
      case Some(m) => if ValidManifest(m) then Some(m) else None
  }

  /** `NewClipboardTransferManifestV1` with the one reference the runtime passes. */
  function NewManifest(digest: Digest, provider: string, reference: string, nodeID: nat, instanceID: string,
                       device: string, nowMillis: int, newID: Option<string>): Option<Manifest> {
    if nodeID == 0 || TrimSpace(instanceID) == "" then None
    else match newID
      case None => None
      case Some(id) =>
        var m := Manifest(EVENT_VERSION, TrimSpace(id), nodeID, TrimSpace(instanceID), TrimSpace(device), "text/plain",
                          "utf-8", digest.size, digest.sha256, [TransferReference(provider, reference, "")], nowMillis);
        if ValidManifest(m) then Some(m) else None
  }

  /** Which received bytes are a manifest: it is taken as it was sent, nothing trimmed. */
  lemma ManifestTakenExactly(payload: Payload)
    ensures var parsed := ParseManifest(payload);
            && (parsed.Some? <==>
                  && payload.wire != "" && Utf8Len(payload.wire) <= 8192 && payload.asManifest.Some?
                  && var m := payload.asManifest.value;
                     && m.version == EVENT_VERSION && m.originNode != 0 && TrimSpace(m.originInstanceID) != ""
                     && TrimSpace(m.eventID) != "" && Utf8Len(m.eventID) <= MAX_EVENT_ID_BYTES
                     && m.contentType == "text/plain" && IsUtf8Label(m.encoding) && 0 < m.size && 0 < m.ts
                     && IsDigest(m.sha256) && m.references != []
                     && forall r :: r in m.references ==>
                          TrimSpace(r.provider) != "" && (TrimSpace(r.opaqueID) != "" || TrimSpace(r.uri) != ""))
            && (parsed.Some? ==> parsed == payload.asManifest)
  {
    hide TrimSpace, Utf8Len, IsUtf8Label, IsDigest;
    if payload.asManifest.Some? {
      var refs := payload.asManifest.value.references;
      assert (forall i :: 0 <= i < |refs| ==> UsableReference(refs[i])) <==>
             (forall r :: r in refs ==> UsableReference(r));
    }
  }
}
