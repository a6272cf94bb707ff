/** The wire form of transfer manifests, how long it is, and which manifests a receiver takes. */
module Manifests {
  import opened Options
  import opened Text
  import opened Json
  import opened Event

  /** The literal pieces around the values of an encoded manifest. */
  datatype Pieces = Pieces(
    version: string, id: string, node: string, instance: string, device: string, content: string, encoding: string,
    size: string, sha: string, refs: string, opaqueID: string, uri: string, next: string, ts: string, end: string)

  const PIECES := Pieces(
    "{\"version\":", ",\"event_id\":", ",\"origin_node\":", ",\"origin_instance_id\":", ",\"origin_device\":",
    ",\"content_type\":", ",\"encoding\":", ",\"size\":", ",\"sha256\":", ",\"refs\":[{\"provider\":",
    ",\"opaque_id\":", ",\"uri\":", "},{\"provider\":", "}],\"ts\":", "}")

  predicate EndsNumber(piece: string) {
    piece != "" && !('0' <= piece[0] <= '9')
  }

  predicate DiffersAt(a: string, b: string, k: nat) {
    k < |a| && k < |b| && a[k] != b[k]
  }

  /** Numbers end where they should, and an absent optional field cannot be mistaken for a present one. */
  ghost predicate Legible(l: Pieces) {
    && EndsNumber(l.id) && EndsNumber(l.instance) && EndsNumber(l.sha) && EndsNumber(l.end)
    && DiffersAt(l.device, l.content, 2)
    && DiffersAt(l.opaqueID, l.uri, 2) && DiffersAt(l.opaqueID, l.next, 0) && DiffersAt(l.opaqueID, l.ts, 0)
    && DiffersAt(l.uri, l.next, 0) && DiffersAt(l.uri, l.ts, 0)
    && DiffersAt(l.next, l.ts, 1)
  }

  // ---------------------------------------------------------------- writing

  /** A field that is left out when it is empty. */
  function OptionalField(piece: string, x: string): string {
    if x == "" then "" else piece + Quote(x)
  }

  function WriteReference(l: Pieces, r: TransferReference, rest: string): string {
    Quote(r.provider) + (OptionalField(l.opaqueID, r.opaqueID) + (OptionalField(l.uri, r.uri) + rest))
  }

  function WriteReferences(l: Pieces, refs: seq<TransferReference>, rest: string): string
    requires refs != []
  {
    WriteReference(l, refs[0], if |refs| == 1 then rest else l.next + WriteReferences(l, refs[1..], rest))
  }

  function WriteEnd(l: Pieces, ts: int): string {
    l.ts + (FormatInt(ts) + l.end)
  }

  /** From the content type on. */
  function WriteContent(l: Pieces, m: Manifest): string
    requires m.references != []
  {
    l.content + (Quote(m.contentType) + (l.encoding + (Quote(m.encoding) + (l.size + (FormatInt(m.size) +
    (l.sha + (Quote(m.sha256) + (l.refs + WriteReferences(l, m.references, WriteEnd(l, m.ts))))))))))
  }

  function WriteManifest(l: Pieces, m: Manifest): string
    requires m.references != []
  {
    l.version + (FormatInt(m.version) + (l.id + (Quote(m.eventID) + (l.node + (FormatInt(m.originNode) +
    (l.instance + (Quote(m.originInstanceID) + (OptionalField(l.device, m.originDevice) + WriteContent(l, m)))))))))
  }

  /** `json.Marshal` of a manifest; a valid one has a reference. */
  function EncodeManifest(m: Manifest): string
    requires m.references != []
  {
    WriteManifest(PIECES, m)
  }

  // ---------------------------------------------------------------- reading

  function ReadOptional(piece: string, s: string): Option<(string, string)> {
    if Expect(piece, s).Some? then ReadField(piece, s) else Some(("", s))
  }

  function ReadReference(l: Pieces, s: string): Option<(TransferReference, string)> {
    match ReadString(s)
    case None => None
    case Some((provider, rest)) =>
      match ReadOptional(l.opaqueID, rest)
      case None => None
      case Some((opaqueID, tail)) =>
        match ReadOptional(l.uri, tail)
        case None => None
        case Some((uri, end)) => Some((TransferReference(provider, opaqueID, uri), end))
  }

  /** At most `most` references; the length of the text is more than enough. */
  function ReadReferences(l: Pieces, s: string, most: nat): Option<(seq<TransferReference>, string)>
    decreases most
  {
    if most == 0 then None
    else match ReadReference(l, s)
      case None => None
      case Some((r, rest)) =>
        match Expect(l.next, rest)
        case None => Some(([r], rest))
        case Some(tail) =>
          match ReadReferences(l, tail, most - 1)
          case None => None
          case Some((others, end)) => Some(([r] + others, end))
  }

  function ReadEnd(l: Pieces, s: string): Option<int> {
    match ReadNumber(l.ts, s)
    case None => None
    case Some((ts, rest)) => if rest == l.end then Some(ts) else None
  }

  datatype Content = Content(contentType: string, encoding: string, size: int, sha256: string,
                             references: seq<TransferReference>, ts: int)

  function ReadTail(l: Pieces, contentType: string, encoding: string, size: int, sha256: string,
                    s: string): Option<Content> {
    match Expect(l.refs, s)
    case None => None
    case Some(rest) =>
      match ReadReferences(l, rest, |rest|)
      case None => None
      case Some((refs, end)) =>
        match ReadEnd(l, end)
        case None => None
        case Some(ts) => Some(Content(contentType, encoding, size, sha256, refs, ts))
  }

  function ReadContent(l: Pieces, s: string): Option<Content> {
    match ReadField(l.content, s)
    case None => None
    case Some((contentType, a)) =>
      match ReadField(l.encoding, a)
      case None => None
      case Some((encoding, b)) =>
        match ReadNumber(l.size, b)
        case None => None
        case Some((size, c)) =>
          match ReadField(l.sha, c)
          case None => None
          case Some((sha256, d)) => ReadTail(l, contentType, encoding, size, sha256, d)
  }

  function ReadOrigin(l: Pieces, version: int, id: string, node: int, instance: string, s: string): Option<Manifest> {
    match ReadOptional(l.device, s)
    case None => None
    case Some((device, rest)) =>
      match ReadContent(l, rest)
      case None => None
      case Some(c) =>
        if node < 0 then None
        else Some(Manifest(version, id, node, instance, device, c.contentType, c.encoding, c.size, c.sha256,
                           c.references, c.ts))
  }

  function ReadManifest(l: Pieces, s: string): Option<Manifest> {
    match ReadNumber(l.version, s)
    case None => None
    case Some((version, a)) =>
      match ReadField(l.id, a)
      case None => None
      case Some((id, b)) =>
        match ReadNumber(l.node, b)
        case None => None
        case Some((node, c)) =>
          match ReadField(l.instance, c)
          case None => None
          case Some((instance, d)) => ReadOrigin(l, version, id, node, instance, d)
  }

  /** Reads manifests laid out as the encoder lays them out. */
  function DecodeManifest(s: string): Option<Manifest> {
    ReadManifest(PIECES, s)
  }

  // ---------------------------------------------------------------- the round trip

  lemma ExpectOther(piece: string, other: string, rest: string, k: nat)
    requires DiffersAt(piece, other, k)
    ensures Expect(piece, other + rest) == None
  {
    if |piece| <= |other + rest| {
      assert (other + rest)[..|piece|][k] == other[k];
    }
  }

  lemma OptionalRoundTrip(piece: string, x: string, rest: string)
    requires Expect(piece, rest) == None
    ensures ReadOptional(piece, OptionalField(piece, x) + rest) == Some((x, rest))
  {
    if x == "" {
      assert "" + rest == rest;
    } else {
      assert OptionalField(piece, x) + rest == piece + (Quote(x) + rest);
      ExpectPiece(piece, Quote(x) + rest);
      FieldRoundTrip(piece, x, rest);
    }
  }

  lemma ReferenceRoundTrip(l: Pieces, r: TransferReference, rest: string)
    requires DiffersAt(l.opaqueID, l.uri, 2)
    requires Expect(l.opaqueID, rest) == None && Expect(l.uri, rest) == None
    ensures ReadReference(l, WriteReference(l, r, rest)) == Some((r, rest))
  {
    var tail := OptionalField(l.uri, r.uri) + rest;
    if r.uri == "" {
      assert tail == rest;
    } else {
      assert tail == l.uri + (Quote(r.uri) + rest);
      ExpectOther(l.opaqueID, l.uri, Quote(r.uri) + rest, 2);
    }
    StringRoundTrip(r.provider, OptionalField(l.opaqueID, r.opaqueID) + tail);
    OptionalRoundTrip(l.opaqueID, r.opaqueID, tail);
    OptionalRoundTrip(l.uri, r.uri, rest);
  }

  lemma {:induction false} ReferencesRoundTrip(l: Pieces, refs: seq<TransferReference>, rest: string, most: nat)
    requires Legible(l) && refs != [] && |refs| <= most
    requires Expect(l.opaqueID, rest) == None && Expect(l.uri, rest) == None && Expect(l.next, rest) == None
    ensures ReadReferences(l, WriteReferences(l, refs, rest), most) == Some((refs, rest))
  {
    hide ReadReference, WriteReference, Expect;
    if |refs| == 1 {
      ReferenceRoundTrip(l, refs[0], rest);
      assert refs == [refs[0]];
    } else {
      var more := WriteReferences(l, refs[1..], rest);
      ExpectOther(l.opaqueID, l.next, more, 0);
      ExpectOther(l.uri, l.next, more, 0);
      ReferenceRoundTrip(l, refs[0], l.next + more);
      ExpectPiece(l.next, more);
      ReferencesRoundTrip(l, refs[1..], rest, most - 1);
      assert refs == [refs[0]] + refs[1..];
    }
  }

  /** Every reference takes up at least its quotes. */
  lemma {:induction false} ReferencesLength(l: Pieces, refs: seq<TransferReference>, rest: string)
    requires refs != []
    ensures |WriteReferences(l, refs, rest)| >= |refs|
  {
    hide EscapeAll;
    if |refs| > 1 { ReferencesLength(l, refs[1..], rest); }
  }

  lemma EndRoundTrip(l: Pieces, ts: int)
    requires Legible(l)
    ensures ReadEnd(l, WriteEnd(l, ts)) == Some(ts)
    ensures Expect(l.opaqueID, WriteEnd(l, ts)) == None && Expect(l.uri, WriteEnd(l, ts)) == None
    ensures Expect(l.next, WriteEnd(l, ts)) == None
  {
    NumberRoundTrip(l.ts, ts, l.end);
    ExpectOther(l.opaqueID, l.ts, FormatInt(ts) + l.end, 0);
    ExpectOther(l.uri, l.ts, FormatInt(ts) + l.end, 0);
    ExpectOther(l.next, l.ts, FormatInt(ts) + l.end, 1);
  }

  lemma TailRoundTrip(l: Pieces, m: Manifest)
    requires Legible(l) && m.references != []
    ensures ReadTail(l, m.contentType, m.encoding, m.size, m.sha256,
                     l.refs + WriteReferences(l, m.references, WriteEnd(l, m.ts))) ==
            Some(Content(m.contentType, m.encoding, m.size, m.sha256, m.references, m.ts))
  {
    hide WriteReferences, ReadReferences, WriteEnd, ReadEnd;
    var refs := WriteReferences(l, m.references, WriteEnd(l, m.ts));
    ExpectPiece(l.refs, refs);
    EndRoundTrip(l, m.ts);
    ReferencesLength(l, m.references, WriteEnd(l, m.ts));
    ReferencesRoundTrip(l, m.references, WriteEnd(l, m.ts), |refs|);
  }

  lemma ContentRoundTrip(l: Pieces, m: Manifest)
    requires Legible(l) && m.references != []
    ensures ReadContent(l, WriteContent(l, m)) ==
            Some(Content(m.contentType, m.encoding, m.size, m.sha256, m.references, m.ts))
  {
    hide WriteReferences, WriteEnd, ReadTail, ReadField, ReadNumber;
    var d := l.refs + WriteReferences(l, m.references, WriteEnd(l, m.ts));
    var c := l.sha + (Quote(m.sha256) + d);
    assert c[0] == l.sha[0];
    var b := l.size + (FormatInt(m.size) + c);
    FieldRoundTrip(l.content, m.contentType, l.encoding + (Quote(m.encoding) + b));
    FieldRoundTrip(l.encoding, m.encoding, b);
    NumberRoundTrip(l.size, m.size, c);
    FieldRoundTrip(l.sha, m.sha256, d);
    TailRoundTrip(l, m);
  }

  lemma OriginRoundTrip(l: Pieces, m: Manifest)
    requires Legible(l) && m.references != []
    ensures ReadOrigin(l, m.version, m.eventID, m.originNode, m.originInstanceID,
                       OptionalField(l.device, m.originDevice) + WriteContent(l, m)) == Some(m)
  {
    hide ReadContent, OptionalField, ReadOptional;
    ContentRoundTrip(l, m);
    ExpectOther(l.device, l.content, WriteContent(l, m)[|l.content|..], 2);
    assert WriteContent(l, m) == l.content + WriteContent(l, m)[|l.content|..];
    OptionalRoundTrip(l.device, m.originDevice, WriteContent(l, m));
  }

  lemma ManifestRoundTripWith(l: Pieces, m: Manifest)
    requires Legible(l) && m.references != []
    ensures ReadManifest(l, WriteManifest(l, m)) == Some(m)
  {
    hide WriteContent, ReadOrigin, ReadField, ReadNumber, OptionalField;
    var d := OptionalField(l.device, m.originDevice) + WriteContent(l, m);
    var c := l.instance + (Quote(m.originInstanceID) + d);
    assert c[0] == l.instance[0];
    var b := l.node + (FormatInt(m.originNode) + c);
    var a := l.id + (Quote(m.eventID) + b);
    assert a[0] == l.id[0];
    NumberRoundTrip(l.version, m.version, a);
    FieldRoundTrip(l.id, m.eventID, b);
    NumberRoundTrip(l.node, m.originNode, c);
    FieldRoundTrip(l.instance, m.originInstanceID, d);
    OriginRoundTrip(l, m);
  }

  lemma PiecesLegible()
    ensures Legible(PIECES)
  {
    assert PIECES.device[2] == 'o' && PIECES.content[2] == 'c';
    assert PIECES.opaqueID[2] == 'o' && PIECES.uri[2] == 'u';
    assert PIECES.opaqueID[0] == ',' && PIECES.uri[0] == ',' && PIECES.next[0] == '}' && PIECES.ts[0] == '}';
    assert PIECES.next[1] == ',' && PIECES.ts[1] == ']';
    assert PIECES.id[0] == ',' && PIECES.instance[0] == ',' && PIECES.sha[0] == ',' && PIECES.end[0] == '}';
  }

  /** Every manifest with a reference survives the wire whole. */
  lemma ManifestRoundTrip(m: Manifest)
    requires m.references != []
    ensures DecodeManifest(EncodeManifest(m)) == Some(m)
  {
    hide ReadManifest, WriteManifest;
    PiecesLegible();
    ManifestRoundTripWith(PIECES, m);
  }

  // ---------------------------------------------------------------- how long an encoded manifest is

  function EscapedLen(x: string): nat {
    Utf8Len(EscapeAll(x))
  }

  /** The bytes of an optional field whose piece has this many. */
  function OptionalLen(piece: nat, x: string): nat {
    if x == "" then 0 else piece + 2 + EscapedLen(x)
  }

  function ReferenceLen(r: TransferReference): nat {
    2 + EscapedLen(r.provider) + OptionalLen(13, r.opaqueID) + OptionalLen(7, r.uri)
  }

  function ReferencesLen(refs: seq<TransferReference>): nat {
    if refs == [] then 0
    else ReferenceLen(refs[0]) + if |refs| == 1 then 0 else 14 + ReferencesLen(refs[1..])
  }

  /** The lengths of the pieces, as numbers. */
  ghost predicate Measured(l: Pieces) {
    && Utf8Len(l.version) == 11 && Utf8Len(l.id) == 12 && Utf8Len(l.node) == 15 && Utf8Len(l.instance) == 22
    && Utf8Len(l.device) == 17 && Utf8Len(l.content) == 16 && Utf8Len(l.encoding) == 12 && Utf8Len(l.size) == 8
    && Utf8Len(l.sha) == 10 && Utf8Len(l.refs) == 21 && Utf8Len(l.opaqueID) == 13 && Utf8Len(l.uri) == 7
    && Utf8Len(l.next) == 14 && Utf8Len(l.ts) == 8 && Utf8Len(l.end) == 1
  }

  lemma OptionalFieldLen(piece: string, x: string)
    ensures Utf8Len(OptionalField(piece, x)) == OptionalLen(Utf8Len(piece), x)
  {
    if x != "" {
      Utf8LenConcat(piece, Quote(x));
      QuoteLen(x);
    }
  }

  lemma FieldLen(piece: string, x: string, rest: string)
    ensures Utf8Len(piece + (Quote(x) + rest)) == Utf8Len(piece) + 2 + EscapedLen(x) + Utf8Len(rest)
  {
    Utf8LenConcat(piece, Quote(x) + rest);
    Utf8LenConcat(Quote(x), rest);
    QuoteLen(x);
  }

  lemma NumberLen(piece: string, n: int, rest: string)
    ensures Utf8Len(piece + (FormatInt(n) + rest)) == Utf8Len(piece) + |FormatInt(n)| + Utf8Len(rest)
  {
    Utf8LenConcat(piece, FormatInt(n) + rest);
    Utf8LenConcat(FormatInt(n), rest);
    AsciiLen(FormatInt(n));
  }

  lemma WriteReferenceLen(l: Pieces, r: TransferReference, rest: string)
    requires Measured(l)
    ensures Utf8Len(WriteReference(l, r, rest)) == ReferenceLen(r) + Utf8Len(rest)
  {
    hide EscapeAll, Utf8Len, OptionalField;
    var tail := OptionalField(l.uri, r.uri) + rest;
    Utf8LenConcat(Quote(r.provider), OptionalField(l.opaqueID, r.opaqueID) + tail);
    Utf8LenConcat(OptionalField(l.opaqueID, r.opaqueID), tail);
    Utf8LenConcat(OptionalField(l.uri, r.uri), rest);
    QuoteLen(r.provider);
    OptionalFieldLen(l.opaqueID, r.opaqueID);
    OptionalFieldLen(l.uri, r.uri);
  }

  lemma {:induction false} WriteReferencesLen(l: Pieces, refs: seq<TransferReference>, rest: string)
    requires Measured(l) && refs != []
    ensures Utf8Len(WriteReferences(l, refs, rest)) == ReferencesLen(refs) + Utf8Len(rest)
  {
    hide WriteReference, ReferenceLen, Utf8Len;
    WriteReferenceLen(l, refs[0], if |refs| == 1 then rest else l.next + WriteReferences(l, refs[1..], rest));
    if |refs| > 1 {
      WriteReferencesLen(l, refs[1..], rest);
      Utf8LenConcat(l.next, WriteReferences(l, refs[1..], rest));
    }
  }

  lemma WriteContentLen(l: Pieces, m: Manifest)
    requires Measured(l) && m.references != []
    ensures Utf8Len(WriteContent(l, m)) ==
            82 + EscapedLen(m.contentType) + EscapedLen(m.encoding) + |FormatInt(m.size)| + EscapedLen(m.sha256)
            + ReferencesLen(m.references) + |FormatInt(m.ts)|
  {
    hide EscapedLen, ReferencesLen, WriteReferences, Utf8Len;
    var refs := WriteReferences(l, m.references, WriteEnd(l, m.ts));
    var c := l.sha + (Quote(m.sha256) + (l.refs + refs));
    var b := l.size + (FormatInt(m.size) + c);
    FieldLen(l.content, m.contentType, l.encoding + (Quote(m.encoding) + b));
    FieldLen(l.encoding, m.encoding, b);
    NumberLen(l.size, m.size, c);
    FieldLen(l.sha, m.sha256, l.refs + refs);
    Utf8LenConcat(l.refs, refs);
    WriteReferencesLen(l, m.references, WriteEnd(l, m.ts));
    NumberLen(l.ts, m.ts, l.end);
  }

  /** The bytes of an encoded manifest, field by field. */
  function ManifestLen(m: Manifest): nat {
    146 + |FormatInt(m.version)| + EscapedLen(m.eventID) + |FormatInt(m.originNode)| + EscapedLen(m.originInstanceID)
    + OptionalLen(17, m.originDevice) + EscapedLen(m.contentType) + EscapedLen(m.encoding) + |FormatInt(m.size)|
    + EscapedLen(m.sha256) + ReferencesLen(m.references) + |FormatInt(m.ts)|
  }

  lemma WriteManifestLen(l: Pieces, m: Manifest)
    requires Measured(l) && m.references != []
    ensures Utf8Len(WriteManifest(l, m)) == ManifestLen(m)
  {
    hide EscapedLen, WriteContent, OptionalField, OptionalLen, Utf8Len;
    var d := OptionalField(l.device, m.originDevice) + WriteContent(l, m);
    var c := l.instance + (Quote(m.originInstanceID) + d);
    var b := l.node + (FormatInt(m.originNode) + c);
    NumberLen(l.version, m.version, l.id + (Quote(m.eventID) + b));
    FieldLen(l.id, m.eventID, b);
    NumberLen(l.node, m.originNode, c);
    FieldLen(l.instance, m.originInstanceID, d);
    Utf8LenConcat(OptionalField(l.device, m.originDevice), WriteContent(l, m));
    OptionalFieldLen(l.device, m.originDevice);
    WriteContentLen(l, m);
  }

  lemma HeadPieces()
    ensures Utf8Len(PIECES.version) == 11 && Utf8Len(PIECES.id) == 12 && Utf8Len(PIECES.node) == 15
  {
    hide Utf8Len;
    AsciiLen(PIECES.version);
    AsciiLen(PIECES.id);
    AsciiLen(PIECES.node);
  }

  lemma OriginPieces()
    ensures Utf8Len(PIECES.instance) == 22 && Utf8Len(PIECES.device) == 17
  {
    hide Utf8Len;
    AsciiLen(PIECES.instance);
    AsciiLen(PIECES.device);
  }

  lemma ContentPieces()
    ensures Utf8Len(PIECES.content) == 16 && Utf8Len(PIECES.encoding) == 12
  {
    hide Utf8Len;
    AsciiLen(PIECES.content);
    AsciiLen(PIECES.encoding);
  }

  lemma SizePieces()
    ensures Utf8Len(PIECES.size) == 8 && Utf8Len(PIECES.sha) == 10
    ensures Utf8Len(PIECES.ts) == 8 && Utf8Len(PIECES.end) == 1
  {
    hide Utf8Len;
    AsciiLen(PIECES.size);
    AsciiLen(PIECES.sha);
    AsciiLen(PIECES.ts);
    AsciiLen(PIECES.end);
  }

  lemma FirstReferencePieces()
    ensures Utf8Len(PIECES.refs) == 21 && Utf8Len(PIECES.next) == 14
  {
    hide Utf8Len;
    AsciiLen(PIECES.refs);
    AsciiLen(PIECES.next);
  }

  lemma ReferencePieces()
    ensures Utf8Len(PIECES.opaqueID) == 13 && Utf8Len(PIECES.uri) == 7
  {
    hide Utf8Len;
    AsciiLen(PIECES.opaqueID);
    AsciiLen(PIECES.uri);
  }

  lemma PiecesMeasured()
    ensures Measured(PIECES)
  {
    hide Utf8Len;
    HeadPieces();
    OriginPieces();
    ContentPieces();
    SizePieces();
    FirstReferencePieces();
    ReferencePieces();
  }

  /** The length of an encoded manifest, exactly. */
  lemma EncodedManifestLen(m: Manifest)
    requires m.references != []
    ensures Utf8Len(EncodeManifest(m)) == ManifestLen(m)
  {
    hide Utf8Len, WriteManifest, Measured, ManifestLen;
    PiecesMeasured();
    WriteManifestLen(PIECES, m);
  }

  // ---------------------------------------------------------------- which manifests a receiver takes

  const MAX_MANIFEST_BYTES := MAX_EVENT_ENVELOPE_BYTES * 2

  lemma ManifestNotEmpty(m: Manifest)
    requires m.references != []
    ensures EncodeManifest(m) != ""
  {
    assert PIECES.version[0] == '{';
    assert EncodeManifest(m)[0] == '{';
  }

  /** A valid manifest is read back by its receivers exactly when its bytes are within their limit. */
  lemma ManifestParsesExactly(m: Manifest)
    requires ValidManifest(m)
    ensures var wire := EncodeManifest(m);
            ParseManifest(Payload(wire, None, DecodeManifest(wire))) ==
            if Utf8Len(wire) <= MAX_MANIFEST_BYTES then Some(m) else None
  {
    hide EncodeManifest, DecodeManifest, Utf8Len;
    ManifestRoundTrip(m);
    ManifestNotEmpty(m);
  }

  // ---------------------------------------------------------------- the manifests the runtime makes

  lemma LabelsEscape(digest: string)
    requires IsDigest(digest)
    ensures EscapedLen("text/plain") == 10 && EscapedLen("utf-8") == 5 && EscapedLen(digest) == 64
  {
    hide Utf8Len, EscapeAll;
    EscapedLenBounds("text/plain");
    EscapedLenBounds("utf-8");
    EscapedLenBounds(digest);
    AsciiLen("text/plain");
    AsciiLen("utf-8");
    AsciiLen(digest);
  }

  /** The bytes of a manifest made for one reference, by what the sender knows before it makes it. */
  function MadeLen(digest: Digest, provider: string, reference: string, nodeID: nat, instance: string, device: string,
                   nowMillis: int, id: string): nat {
    243 + EscapedLen(id) + |FormatInt(nodeID)| + EscapedLen(instance) + OptionalLen(17, device)
    + |FormatInt(digest.size)| + EscapedLen(provider) + EscapedLen(reference) + |FormatInt(nowMillis)|
  }

  lemma MadeManifestLen(digest: Digest, provider: string, reference: string, nodeID: nat, instanceID: string,
                        device: string, nowMillis: int, id: string)
    requires NewManifest(digest, provider, reference, nodeID, instanceID, device, nowMillis, Some(id)).Some?
    ensures var m := NewManifest(digest, provider, reference, nodeID, instanceID, device, nowMillis, Some(id)).value;
            ManifestLen(m) == MadeLen(digest, provider, reference, nodeID, TrimSpace(instanceID), TrimSpace(device),
                                      nowMillis, TrimSpace(id))
  {
    hide EscapedLen, TrimSpace;
    var m := NewManifest(digest, provider, reference, nodeID, instanceID, device, nowMillis, Some(id)).value;
    LabelsEscape(m.sha256);
    assert UsableReference(m.references[0]);
    assert TrimSpace("") == "" && reference != "";
    assert FormatInt(1) == Digits(1);
  }

  /**
   What the runtime makes is taken by its receivers exactly when its fields leave the envelope intact; the
   sender does not look.
   */
  lemma MadeManifestParsesExactly(digest: Digest, provider: string, reference: string, nodeID: nat, instanceID: string,
                                  device: string, nowMillis: int, id: string)
    requires NewManifest(digest, provider, reference, nodeID, instanceID, device, nowMillis, Some(id)).Some?
    ensures var m := NewManifest(digest, provider, reference, nodeID, instanceID, device, nowMillis, Some(id)).value;
            var wire := EncodeManifest(m);
            ParseManifest(Payload(wire, None, DecodeManifest(wire))) == Some(m) <==>
            MadeLen(digest, provider, reference, nodeID, TrimSpace(instanceID), TrimSpace(device), nowMillis,
                    TrimSpace(id)) <= MAX_MANIFEST_BYTES
  {
    hide EncodeManifest, DecodeManifest, Utf8Len, TrimSpace, MadeLen, ManifestLen, ParseManifest;
    var m := NewManifest(digest, provider, reference, nodeID, instanceID, device, nowMillis, Some(id)).value;
    ManifestParsesExactly(m);
    EncodedManifestLen(m);
    MadeManifestLen(digest, provider, reference, nodeID, instanceID, device, nowMillis, id);
  }

  /** A reference as long as the envelope: the manifest is made, and no receiver takes it, whatever its decoder. */
  lemma LongReferenceMayNotParse(digest: Digest, nodeID: nat, id: string, nowMillis: int)
    requires nodeID != 0 && 0 < digest.size && IsDigest(digest.sha256) && 0 < nowMillis
    requires id != "" && Trimmed(id) && Utf8Len(id) <= MAX_EVENT_ID_BYTES
    ensures var reference := seq(MAX_MANIFEST_BYTES, _ => 'r');
            var made := NewManifest(digest, "p", reference, nodeID, "i", "", nowMillis, Some(id));
            && made.Some?
            && forall read :: ParseManifest(Payload(EncodeManifest(made.value), None, read)) == None
  {
    hide EscapeAll, EncodeManifest, DecodeManifest;
    var reference := seq(MAX_MANIFEST_BYTES, _ => 'r');
    var made := NewManifest(digest, "p", reference, nodeID, "i", "", nowMillis, Some(id));
    LongReferenceIsMade(digest, nodeID, id, nowMillis);
    EscapedLenBounds(reference);
    EncodedManifestLen(made.value);
    MadeManifestLen(digest, "p", reference, nodeID, "i", "", nowMillis, id);
  }

  lemma LongReferenceIsMade(digest: Digest, nodeID: nat, id: string, nowMillis: int)
    requires nodeID != 0 && 0 < digest.size && IsDigest(digest.sha256) && 0 < nowMillis
    requires id != "" && Trimmed(id) && Utf8Len(id) <= MAX_EVENT_ID_BYTES
    ensures NewManifest(digest, "p", seq(MAX_MANIFEST_BYTES, _ => 'r'), nodeID, "i", "", nowMillis, Some(id)).Some?
  {
    var reference := seq(MAX_MANIFEST_BYTES, _ => 'r');
    assert reference[0] == 'r' && Trimmed(reference) && Trimmed("p") && Trimmed("i");
    assert IsUtf8Label("utf-8");
    assert UsableReference(TransferReference("p", reference, ""));
  }
}
