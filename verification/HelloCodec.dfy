/** An abstract ClientHello, its encoding, and the proof that the importer inverts the encoding up
    to the dynamic fields it drops. */
module HelloCodec {
  import opened Bytes
  import opened TlsNames
  import opened Options
  import opened TlsDecl
  import opened HelloImport

  datatype Share = Share(group: U16, key: ByteString)

  /** An extension of the supported set with everything it has on the wire. */
  datatype HelloExt =
    | Bare(bareKind: U16, body: ByteString)
    | GroupList(groups: seq<U16>)
    | Points
    | SignatureList(algorithms: seq<U16>)
    | ProtocolNames(protocolKind: U16, protocols: seq<string>)
    | Compression(methods: seq<U16>)
    | SizeLimit(limit: U16)
    | Delegated(credentials: seq<U16>)
    | Versions(versions: seq<U16>)
    | PskModes
    | KeyShares(shares: seq<Share>)
    | OuterEch(kdf: U16, aead: U16, configId: Byte, key: ByteString, payload: ByteString)

  datatype Hello = Hello(
    version: U16, random: ByteString, sessionId: ByteString, cipherSuites: seq<U16>, extensions: seq<HelloExt>)

  // ---- encoding ------------------------------------------------------------------------------

  function Ascii(name: string): ByteString {
    seq(|name|, i requires 0 <= i < |name| => if name[i] < 128 as char then name[i] as int else 0)
  }

  function EncodeProtocols(names: seq<string>): ByteString {
    if |names| == 0 then [] else [|Ascii(names[0])| % 0x100] + Ascii(names[0]) + EncodeProtocols(names[1..])
  }

  /** A two-byte number followed by a two-byte vector, as in key_share and in the extension block. */
  function Tagged(tag: U16, item: ByteString): (s: ByteString)
    ensures |s| == 4 + |item|
  {
    U16Bytes(tag) + U16Bytes(|item|) + item
  }

  function EncodeShares(shares: seq<Share>): ByteString {
    if |shares| == 0 then []
    else Tagged(shares[0].group, shares[0].key) + EncodeShares(shares[1..])
  }

  const PROTOCOL_KINDS: map<U16, ExtName> := map[16 := Alpn, 17513 := ApplicationSettings, 17613 := ApplicationSettingsNew]

  function Kind(e: HelloExt): U16 {
    match e
    case Bare(kind, _) => kind
    case GroupList(_) => 10
    case Points => 11
    case SignatureList(_) => 13
    case ProtocolNames(kind, _) => kind
    case Compression(_) => 27
    case SizeLimit(_) => 28
    case Delegated(_) => 34
    case Versions(_) => 43
    case PskModes => 45
    case KeyShares(_) => 51
    case OuterEch(_, _, _, _, _) => 65037
  }

  function Body(e: HelloExt): ByteString {
    match e
    case Bare(_, body) => body
    case GroupList(ids) => Vector(EncodePairs(ids), 2)
    case Points => [1, 0]
    case SignatureList(ids) => Vector(EncodePairs(ids), 2)
    case ProtocolNames(_, names) => Vector(EncodeProtocols(names), 2)
    case Compression(ids) => Vector(EncodePairs(ids), 1)
    case SizeLimit(limit) => U16Bytes(limit)
    case Delegated(ids) => Vector(EncodePairs(ids), 2)
    case Versions(ids) => Vector(EncodePairs(ids), 1)
    case PskModes => [1, 1]
    case KeyShares(shares) => Vector(EncodeShares(shares), 2)
    case OuterEch(kdf, aead, configId, key, payload) =>
      EchHead(kdf, aead, configId) + Vector(key, 2) + Vector(payload, 2)
  }

  /** Type outer, the HPKE suite and the config id. */
  function EchHead(kdf: U16, aead: U16, configId: Byte): (head: ByteString)
    ensures |head| == 6
  {
    [0] + U16Bytes(kdf) + U16Bytes(aead) + [configId]
  }

  function EncodeExtensions(extensions: seq<HelloExt>): ByteString {
    if |extensions| == 0 then []
    else Tagged(Kind(extensions[0]), Body(extensions[0])) + EncodeExtensions(extensions[1..])
  }

  /** Everything behind the four bytes of handshake header. */
  function EncodeFields(h: Hello): ByteString {
    U16Bytes(h.version) + h.random + Vector(h.sessionId, 1) + Vector(EncodePairs(h.cipherSuites), 2)
    + Vector([0], 1) + Vector(EncodeExtensions(h.extensions), 2)
  }

  /** The handshake message of section 4 of RFC 8446: type 1, a three-byte length, the fields. */
  function Encode(h: Hello): ByteString {
    [1] + Vector(EncodeFields(h), 3)
  }

  // ---- well-formed hellos ----------------------------------------------------------------------

  predicate FitsList(ids: seq<U16>, width: nat) {
    2 * |ids| < Power256(width)
  }

  predicate AcceptedGroup(group: U16) {
    IsGrease(group) || group in {0x001D, 0x0017, 0x0018, 0x0019, 0x11EC}
  }

  predicate WellFormedExt(e: HelloExt) {
    && |Body(e)| < 0x1_0000
    && match e
       case Bare(kind, _) => IsGrease(kind) || kind in {0, 5, 18, 23, 35, 65281}
       case GroupList(ids) => FitsList(ids, 2)
       case Points => true
       case SignatureList(ids) => FitsList(ids, 2)
       case ProtocolNames(kind, names) =>
         kind in {16, 17513, 17613} && names != [] && forall i :: 0 <= i < |names| ==> names[i] in {"h2", "http/1.1"}
       case Compression(ids) => FitsList(ids, 1) && forall i :: 0 <= i < |ids| ==> ids[i] in {1, 2, 3}
       case SizeLimit(limit) => 64 <= limit <= 16385
       case Delegated(ids) => FitsList(ids, 2) && ids != []
       case Versions(ids) => FitsList(ids, 1) && forall i :: 0 <= i < |ids| ==> IsGrease(ids[i]) || ids[i] in {0x0303, 0x0304}
       case PskModes => true
       case KeyShares(shares) =>
         shares != [] && forall i :: 0 <= i < |shares| ==> AcceptedGroup(shares[i].group) && |shares[i].key| < 0x1_0000
       case OuterEch(kdf, aead, _, key, payload) =>
         kdf in {1, 2, 3} && aead in {1, 2, 3} && |key| == 32 && 16 < |payload|
  }

  /** The first supported_versions list, if any. */
  function OfferedVersions(extensions: seq<HelloExt>): Option<seq<U16>> {
    if |extensions| == 0 then None
    else if extensions[0].Versions? then Some(extensions[0].versions)
    else OfferedVersions(extensions[1..])
  }

  /** The offered versions without the GREASE values. */
  function RealVersions(ids: seq<U16>): seq<int> {
    if |ids| == 0 then [] else (if IsGrease(ids[0]) then [] else [ids[0]]) + RealVersions(ids[1..])
  }

  predicate WellFormed(h: Hello) {
    && |h.random| == 32
    && |h.sessionId| < 0x100
    && h.cipherSuites != [] && FitsList(h.cipherSuites, 2)
    && |EncodeExtensions(h.extensions)| < 0x1_0000
    && (forall i :: 0 <= i < |h.extensions| ==> WellFormedExt(h.extensions[i]))
    && OfferedVersions(h.extensions).Some?
    && RealVersions(OfferedVersions(h.extensions).value) != []
  }

  // ---- projection --------------------------------------------------------------------------------

  function CompressionNames(ids: seq<U16>): seq<string>
    requires forall i :: 0 <= i < |ids| ==> ids[i] in CERT_COMPRESSION
  {
    seq(|ids|, i requires 0 <= i < |ids| => CERT_COMPRESSION[ids[i]])
  }

  function ProjectShares(shares: seq<Share>): seq<ShareDecl> {
    if |shares| == 0 then [] else [ShareDecl(TlsName(shares[0].group, GROUPS), None)] + ProjectShares(shares[1..])
  }

  /** The declaration that forgets the dynamic part of an extension. */
  function ProjectExt(e: HelloExt): TlsExt
    requires WellFormedExt(e)
  {
    match e
    case Bare(kind, _) => Plain(BareName(kind).value)
    case GroupList(ids) => Listed(SupportedGroups, NamesOf(ids, GROUPS))
    case Points => Listed(EcPointFormats, ["uncompressed"])
    case SignatureList(ids) => Listed(SignatureAlgorithms, NamesOf(ids, SIGNATURES))
    case ProtocolNames(kind, names) => Listed(PROTOCOL_KINDS[kind], names)
    case Compression(ids) => Listed(CompressCertificate, CompressionNames(ids))
    case SizeLimit(limit) => Limited(limit)
    case Delegated(ids) => Listed(DelegatedCredentials, NamesOf(ids, SIGNATURES))
    case Versions(ids) => Listed(SupportedVersions, NamesOf(ids, VERSIONS))
    case PskModes => Listed(PskKeyExchangeModes, ["psk_dhe_ke"])
    case KeyShares(shares) => Shared(ProjectShares(shares))
    case OuterEch(kdf, aead, _, _, payload) => Ech(Some([(kdf, aead)]), None, Some([|payload| - 16]))
  }

  function ProjectExts(extensions: seq<HelloExt>): (r: seq<TlsExt>)
    requires forall i :: 0 <= i < |extensions| ==> WellFormedExt(extensions[i])
    ensures |r| == |extensions|
  {
    if |extensions| == 0 then [] else [ProjectExt(extensions[0])] + ProjectExts(extensions[1..])
  }

  function Project(h: Hello): TlsSpec
    requires WellFormed(h)
  {
    var versions := RealVersions(OfferedVersions(h.extensions).value);
    TlsSpec(NamesOf(h.cipherSuites, CIPHERS), ["NULL"], ProjectExts(h.extensions), Min(versions), Max(versions), false)
  }

  // ---- lists ---------------------------------------------------------------------------------------

  lemma Uint16ListWritten(ids: seq<U16>, prefix: nat)
    requires FitsList(ids, prefix)
    ensures Uint16List(Vector(EncodePairs(ids), prefix), prefix) == Ok(ids)
  {
    var data := Vector(EncodePairs(ids), prefix);
    TakeWholeVector(data, prefix, EncodePairs(ids));
    PairsOfEncodePairs(ids);
  }

  lemma Uint16ListRead(data: ByteString, prefix: nat)
    requires Uint16List(data, prefix).Ok?
    ensures var ids := Uint16List(data, prefix).value;
            FitsList(ids, prefix) && data == Vector(EncodePairs(ids), prefix)
  {
    var (body, offset) := TakeVector(data, 0, prefix).value;
    TakeWholeVector(data, prefix, body);
    EncodePairsOfPairs(body);
  }

  lemma AsciiInverse(item: ByteString)
    requires DecodeAscii(item).Ok?
    ensures Ascii(DecodeAscii(item).value) == item
  {
    var name := DecodeAscii(item).value;
    forall i | 0 <= i < |item|
      ensures Ascii(name)[i] == item[i]
    {
      assert item[i] in item;
    }
  }

  lemma ProtocolAscii(name: string)
    requires name in PROTOCOLS
    ensures |Ascii(name)| < 0x100 && DecodeAscii(Ascii(name)) == Ok(name)
  {
    forall i | 0 <= i < |name|
      ensures name[i] < 128 as char
    {
    }
    assert forall b :: b in Ascii(name) ==> b < 0x80;
    assert DecodeAscii(Ascii(name)).value == name;
  }

  /** A one-byte vector at `cursor`. */
  lemma ByteVector(data: ByteString, cursor: nat, item: ByteString)
    requires cursor + 1 + |item| <= |data| && |item| < 0x100
    ensures data[cursor..cursor + 1 + |item|] == [|item| % 0x100] + item <==>
            data[cursor] == |item| && data[cursor + 1..cursor + 1 + |item|] == item
  {
    assert data[cursor..cursor + 1 + |item|] == [data[cursor]] + data[cursor + 1..cursor + 1 + |item|];
  }

  lemma {:induction false} ProtocolItemsWritten(body: ByteString, cursor: nat, names: seq<string>)
    requires cursor <= |body| && body[cursor..] == EncodeProtocols(names)
    requires forall i :: 0 <= i < |names| ==> names[i] in PROTOCOLS
    ensures ProtocolItems(body, cursor) == Ok(names)
    decreases |names|
  {
    if |names| > 0 {
      var item := Ascii(names[0]);
      ProtocolAscii(names[0]);
      var next := cursor + 1 + |item|;
      SplitSuffix(body, cursor, [|item| % 0x100] + item, EncodeProtocols(names[1..]));
      ByteVector(body, cursor, item);
      ProtocolItemsWritten(body, next, names[1..]);
      assert names == [names[0]] + names[1..];
    }
  }

  lemma {:induction false} ProtocolItemsRead(body: ByteString, cursor: nat)
    requires cursor <= |body| && ProtocolItems(body, cursor).Ok?
    ensures var names := ProtocolItems(body, cursor).value;
            body[cursor..] == EncodeProtocols(names) && forall i :: 0 <= i < |names| ==> names[i] in PROTOCOLS
    decreases |body| - cursor
  {
    if cursor < |body| {
      var next := cursor + 1 + body[cursor] as int;
      var item := body[cursor + 1..next];
      AsciiInverse(item);
      ByteVector(body, cursor, item);
      ProtocolItemsRead(body, next);
      var names := ProtocolItems(body, cursor).value;
      assert names[1..] == ProtocolItems(body, next).value;
      JoinSuffix(body, cursor, next);
    }
  }

  lemma TableNames(group: U16)
    ensures ShareName(group).Ok? <==> AcceptedGroup(group)
    ensures ShareName(group).Ok? ==> ShareName(group).value == TlsName(group, GROUPS)
  {
    if !IsGrease(group) && group !in GROUPS {
      GroupsUsable();
      ParseHexOfHex(group);
      assert forall name :: name in GROUPS.Values ==> !("0x" <= name);
    } else if !IsGrease(group) {
      assert GROUPS[group] in GROUPS.Values;
    }
  }

  lemma TaggedVector(data: ByteString, cursor: nat, tag: U16, item: ByteString)
    requires cursor + 4 + |item| <= |data| && |item| < 0x1_0000
    ensures data[cursor..cursor + 4 + |item|] == Tagged(tag, item) <==>
            U16At(data, cursor) == tag && U16At(data, cursor + 2) == |item| && data[cursor + 4..cursor + 4 + |item|] == item
  {
    var end := cursor + 4 + |item|;
    var parts := Tagged(tag, item);
    assert data[cursor..end] == data[cursor..cursor + 2] + data[cursor + 2..cursor + 4] + data[cursor + 4..end];
    U16AtIff(data, cursor, tag);
    U16AtIff(data, cursor + 2, |item|);
    assert parts[..2] == U16Bytes(tag) && parts[2..4] == U16Bytes(|item|) && parts[4..] == item;
    if data[cursor..end] == parts {
      assert data[cursor..cursor + 2] == parts[..2] && data[cursor + 2..cursor + 4] == parts[2..4];
      assert data[cursor + 4..end] == parts[4..];
    }
  }

  lemma {:induction false} ShareItemsWritten(body: ByteString, cursor: nat, shares: seq<Share>)
    requires cursor <= |body| && body[cursor..] == EncodeShares(shares)
    requires forall i :: 0 <= i < |shares| ==> AcceptedGroup(shares[i].group) && |shares[i].key| < 0x1_0000
    ensures ShareItems(body, cursor) == Ok(ProjectShares(shares))
    decreases |shares|
  {
    hide ShareName, AcceptedGroup, U16At, Tagged;
    if |shares| > 0 {
      var group, key := shares[0].group, shares[0].key;
      var next := cursor + 4 + |key|;
      SplitSuffix(body, cursor, Tagged(group, key), EncodeShares(shares[1..]));
      TaggedVector(body, cursor, group, key);
      TableNames(group);
      ShareItemsWritten(body, next, shares[1..]);
    }
  }

  lemma {:induction false} ShareItemsRead(body: ByteString, cursor: nat) returns (shares: seq<Share>)
    requires cursor <= |body| && ShareItems(body, cursor).Ok?
    ensures body[cursor..] == EncodeShares(shares) && ProjectShares(shares) == ShareItems(body, cursor).value
    ensures forall i :: 0 <= i < |shares| ==> AcceptedGroup(shares[i].group) && |shares[i].key| < 0x1_0000
    ensures cursor < |body| ==> shares != []
    decreases |body| - cursor
  {
    shares := [];
    if cursor < |body| {
      var group, next := U16At(body, cursor), cursor + 4 + U16At(body, cursor + 2);
      var key := body[cursor + 4..next];
      TableNames(group);
      TaggedVector(body, cursor, group, key);
      var rest := ShareItemsRead(body, next);
      shares := [Share(group, key)] + rest;
      assert shares[1..] == rest;
      JoinSuffix(body, cursor, next);
    }
  }

  // ---- extensions ------------------------------------------------------------------------------------

  /** The first six bytes of an outer ECH. */
  lemma EchHeadIff(data: ByteString, kdf: U16, aead: U16)
    requires |data| >= 6
    ensures data[..6] == EchHead(kdf, aead, data[5]) <==> data[0] == 0 && U16At(data, 1) == kdf && U16At(data, 3) == aead
  {
    var head := EchHead(kdf, aead, data[5]);
    U16AtIff(data, 1, kdf);
    U16AtIff(data, 3, aead);
    assert data[..6] == [data[0]] + data[1..3] + data[3..5] + [data[5]];
    assert head[0] == 0 && head[1..3] == U16Bytes(kdf) && head[3..5] == U16Bytes(aead);
    if data[..6] == head {
      assert data[1..3] == data[..6][1..3] && data[3..5] == data[..6][3..5] && data[0] == data[..6][0];
    }
  }

  lemma EchWritten(kdf: U16, aead: U16, configId: Byte, key: ByteString, payload: ByteString)
    requires WellFormedExt(OuterEch(kdf, aead, configId, key, payload))
    ensures GreaseEch(Body(OuterEch(kdf, aead, configId, key, payload))) ==
            Ok(Ech(Some([(kdf as int, aead as int)]), None, Some([|payload| - 16])))
  {
    hide Number, BigEndian;
    var head := EchHead(kdf, aead, configId);
    var data := head + Vector(key, 2) + Vector(payload, 2);
    assert Body(OuterEch(kdf, aead, configId, key, payload)) == data;
    assert data[..6] == head && data[5] == head[5] == configId;
    EchHeadIff(data, kdf, aead);
    var middle := 8 + |key|;
    assert data[6..middle] == Vector(key, 2) && data[middle..|data|] == Vector(payload, 2);
    WirePowers();
    TakeVectorWritten(data, 6, 2, key);
    TakeVectorWritten(data, middle, 2, payload);
  }

  lemma EchRead(data: ByteString) returns (e: HelloExt)
    requires GreaseEch(data).Ok? && |data| < 0x1_0000
    ensures e.OuterEch? && WellFormedExt(e) && Body(e) == data && ProjectExt(e) == GreaseEch(data).value
  {
    hide Number, BigEndian, U16At;
    var (key, middle) := TakeVector(data, 6, 2).value;
    var (payload, end) := TakeVector(data, middle, 2).value;
    TakeVectorReads(data, 6, 2, key, middle);
    TakeVectorReads(data, middle, 2, payload, end);
    EchHeadIff(data, U16At(data, 1), U16At(data, 3));
    e := OuterEch(U16At(data, 1), U16At(data, 3), data[5], key, payload);
    assert Body(e) == data[..6] + data[6..middle] + data[middle..end] == data;
  }

  /** Parsing the encoding of an extension gives its projection. */
  lemma ExtensionWritten(e: HelloExt)
    requires WellFormedExt(e)
    ensures ParseExtension(Kind(e), Body(e)) == Ok(ProjectExt(e))
  {
    hide TakeVector, Uint16List, Shares, Protocols, GreaseEch, Vector, NamesOf;
    match e
    case Bare(_, _) =>
    case GroupList(_) => IdsWritten(e);
    case Points =>
    case SignatureList(_) => IdsWritten(e);
    case ProtocolNames(_, names) => ProtocolsWritten(names);
    case Compression(ids) => CompressionWritten(ids);
    case SizeLimit(limit) => SizeLimitWritten(limit);
    case Delegated(_) => IdsWritten(e);
    case Versions(ids) => VersionsWritten(ids);
    case PskModes =>
    case KeyShares(shares) => SharesWritten(shares);
    case OuterEch(kdf, aead, configId, key, payload) => EchWritten(kdf, aead, configId, key, payload);
  }

  lemma IdsWritten(e: HelloExt)
    requires WellFormedExt(e) && (e.GroupList? || e.SignatureList? || e.Delegated?)
    ensures ParseExtension(Kind(e), Body(e)) == Ok(ProjectExt(e))
  {
    hide Uint16List, Vector, NamesOf;
    match e
    case GroupList(ids) => Uint16ListWritten(ids, 2);
    case SignatureList(ids) => Uint16ListWritten(ids, 2);
    case Delegated(ids) => Uint16ListWritten(ids, 2);
  }

  lemma SizeLimitWritten(limit: U16)
    requires 64 <= limit <= 16385
    ensures ParseExtension(28, U16Bytes(limit)) == Ok(Limited(limit))
  {
    NumberOfTwo(U16Bytes(limit));
  }

  lemma CompressionWritten(ids: seq<U16>)
    requires WellFormedExt(Compression(ids))
    ensures ParseExtension(27, Vector(EncodePairs(ids), 1)) == Ok(Listed(CompressCertificate, CompressionNames(ids)))
  {
    assert forall i :: 0 <= i < |ids| ==> ids[i] in CERT_COMPRESSION;
    Uint16ListWritten(ids, 1);
    hide Uint16List, Vector, EncodePairs, WellFormedExt, IsGrease, TlsName, Shares, Protocols, GreaseEch, CERT_COMPRESSION;
    var parsed := ParseExtension(27, Vector(EncodePairs(ids), 1));
    assert parsed.Ok? && parsed.value.names == CompressionNames(ids);
  }

  lemma VersionsWritten(ids: seq<U16>)
    requires WellFormedExt(Versions(ids))
    ensures ParseExtension(43, Vector(EncodePairs(ids), 1)) == Ok(Listed(SupportedVersions, NamesOf(ids, VERSIONS)))
  {
    hide Uint16List, Vector, TlsName;
    Uint16ListWritten(ids, 1);
    VersionNames(ids);
  }

  lemma ProtocolsWritten(names: seq<string>)
    requires names != [] && |Vector(EncodeProtocols(names), 2)| < 0x1_0000
    requires forall i :: 0 <= i < |names| ==> names[i] in PROTOCOLS
    ensures Protocols(Vector(EncodeProtocols(names), 2)) == Ok(names)
  {
    var body := EncodeProtocols(names);
    WirePowers();
    TakeWholeVector(Vector(body, 2), 2, body);
    assert body[0..] == body;
    ProtocolItemsWritten(body, 0, names);
  }

  lemma SharesWritten(shares: seq<Share>)
    requires shares != [] && |Vector(EncodeShares(shares), 2)| < 0x1_0000
    requires forall i :: 0 <= i < |shares| ==> AcceptedGroup(shares[i].group) && |shares[i].key| < 0x1_0000
    ensures Shares(Vector(EncodeShares(shares), 2)) == Ok(ProjectShares(shares))
  {
    var body := EncodeShares(shares);
    WirePowers();
    TakeWholeVector(Vector(body, 2), 2, body);
    assert body[0..] == body;
    ShareItemsWritten(body, 0, shares);
  }

  /** A version name is a hex text exactly when the version is outside the table. */
  lemma VersionNames(ids: seq<U16>)
    ensures (exists i :: 0 <= i < |ids| && "0x" <= NamesOf(ids, VERSIONS)[i]) <==>
            (exists i :: 0 <= i < |ids| && !IsGrease(ids[i]) && ids[i] !in VERSIONS)
  {
    forall i | 0 <= i < |ids|
      ensures "0x" <= NamesOf(ids, VERSIONS)[i] <==> !IsGrease(ids[i]) && ids[i] !in VERSIONS
    {
      VersionsUsable();
      ParseHexOfHex(ids[i]);
    }
  }

  // ---- the other direction -----------------------------------------------------------------------------

  lemma ProtocolsRead(data: ByteString)
    requires Protocols(data).Ok?
    ensures var names := Protocols(data).value;
            names != [] && data == Vector(EncodeProtocols(names), 2) && forall i :: 0 <= i < |names| ==> names[i] in PROTOCOLS
  {
    var (body, offset) := TakeVector(data, 0, 2).value;
    TakeWholeVector(data, 2, body);
    ProtocolItemsRead(body, 0);
    assert body[0..] == body;
  }

  lemma SharesRead(data: ByteString) returns (shares: seq<Share>)
    requires Shares(data).Ok? && |data| < 0x1_0000
    ensures data == Vector(EncodeShares(shares), 2) && ProjectShares(shares) == Shares(data).value
    ensures WellFormedExt(KeyShares(shares))
  {
    var (body, offset) := TakeVector(data, 0, 2).value;
    TakeWholeVector(data, 2, body);
    shares := ShareItemsRead(body, 0);
    assert body[0..] == body;
  }

  lemma CompressionRead(data: ByteString) returns (e: HelloExt)
    requires ParseExtension(27, data).Ok? && |data| < 0x1_0000
    ensures WellFormedExt(e) && Kind(e) == 27 && Body(e) == data && Ok(ProjectExt(e)) == ParseExtension(27, data)
  {
    Uint16ListRead(data, 1);
    var ids := Uint16List(data, 1).value;
    e := Compression(ids);
    assert ParseExtension(27, data).value.names == CompressionNames(ids);
  }

  lemma VersionsRead(data: ByteString) returns (e: HelloExt)
    requires ParseExtension(43, data).Ok? && |data| < 0x1_0000
    ensures WellFormedExt(e) && Kind(e) == 43 && Body(e) == data && Ok(ProjectExt(e)) == ParseExtension(43, data)
  {
    hide TlsName, TakeVector, Vector;
    Uint16ListRead(data, 1);
    var ids := Uint16List(data, 1).value;
    VersionNames(ids);
    e := Versions(ids);
  }

  /** The extensions whose body is a plain list of two-byte ids. */
  lemma IdsRead(kind: U16, data: ByteString) returns (e: HelloExt)
    requires kind in {10, 13, 34} && ParseExtension(kind, data).Ok? && |data| < 0x1_0000
    ensures WellFormedExt(e) && Kind(e) == kind && Body(e) == data && Ok(ProjectExt(e)) == ParseExtension(kind, data)
  {
    hide Uint16List, Vector, NamesOf;
    Uint16ListRead(data, 2);
    var ids := Uint16List(data, 2).value;
    e := if kind == 10 then GroupList(ids) else if kind == 13 then SignatureList(ids) else Delegated(ids);
  }

  lemma SizeLimitRead(data: ByteString)
    requires |data| == 2
    ensures Number(data) < 0x1_0000 && U16Bytes(Number(data)) == data
  {
    NumberOfTwo(data);
  }

  /** Every extension the importer accepts is the encoding of one in the supported set. */
  lemma ExtensionRead(kind: U16, data: ByteString) returns (e: HelloExt)
    requires ParseExtension(kind, data).Ok? && |data| < 0x1_0000
    ensures WellFormedExt(e) && Kind(e) == kind && Body(e) == data && Ok(ProjectExt(e)) == ParseExtension(kind, data)
  {
    hide TakeVector, Uint16List, Shares, Protocols, GreaseEch, Vector, NamesOf;
    if BareName(kind).Some? {
      e := Bare(kind, data);
    } else if kind in {10, 13, 34} {
      e := IdsRead(kind, data);
    } else if kind in PROTOCOL_KINDS {
      ProtocolsRead(data);
      e := ProtocolNames(kind, Protocols(data).value);
    } else if kind == 11 {
      e := Points;
    } else if kind == 27 {
      e := CompressionRead(data);
    } else if kind == 28 {
      SizeLimitRead(data);
      e := SizeLimit(Number(data));
    } else if kind == 43 {
      e := VersionsRead(data);
    } else if kind == 45 {
      e := PskModes;
    } else if kind == 51 {
      var shares := SharesRead(data);
      e := KeyShares(shares);
    } else {
      e := EchRead(data);
    }
  }

  // ---- the extension block and the message ------------------------------------------------------------------

  lemma {:induction false} ExtensionItemsWritten(block: ByteString, cursor: nat, extensions: seq<HelloExt>)
    requires cursor <= |block| && block[cursor..] == EncodeExtensions(extensions)
    requires forall i :: 0 <= i < |extensions| ==> WellFormedExt(extensions[i])
    ensures ExtensionItems(block, cursor) == Ok(ProjectExts(extensions))
    decreases |extensions|
  {
    hide ParseExtension, WellFormedExt, ProjectExt, Body, Kind, U16At, Tagged;
    if |extensions| > 0 {
      var e := extensions[0];
      BodyFits(e);
      SplitSuffix(block, cursor, Tagged(Kind(e), Body(e)), EncodeExtensions(extensions[1..]));
      TaggedVector(block, cursor, Kind(e), Body(e));
      ExtensionWritten(e);
      ExtensionItemsWritten(block, cursor + 4 + |Body(e)|, extensions[1..]);
    }
  }

  lemma BodyFits(e: HelloExt)
    requires WellFormedExt(e)
    ensures |Body(e)| < 0x1_0000
  {
  }

  lemma {:induction false} ExtensionItemsRead(block: ByteString, cursor: nat) returns (extensions: seq<HelloExt>)
    requires cursor <= |block| && ExtensionItems(block, cursor).Ok?
    ensures block[cursor..] == EncodeExtensions(extensions)
    ensures forall i :: 0 <= i < |extensions| ==> WellFormedExt(extensions[i])
    ensures ProjectExts(extensions) == ExtensionItems(block, cursor).value
    decreases |block| - cursor
  {
    hide ParseExtension, WellFormedExt, ProjectExt, Body, Kind, U16At, Tagged;
    extensions := [];
    if cursor < |block| {
      var kind, next := U16At(block, cursor), cursor + 4 + U16At(block, cursor + 2);
      var e := ExtensionRead(kind, block[cursor + 4..next]);
      TaggedVector(block, cursor, kind, Body(e));
      var rest := ExtensionItemsRead(block, next);
      extensions := [e] + rest;
      assert extensions[1..] == rest;
      JoinSuffix(block, cursor, next);
    }
  }

  lemma {:induction false} FirstVersionsProjected(extensions: seq<HelloExt>)
    requires forall i :: 0 <= i < |extensions| ==> WellFormedExt(extensions[i])
    ensures FirstVersions(ProjectExts(extensions)) ==
            if OfferedVersions(extensions).Some? then Some(NamesOf(OfferedVersions(extensions).value, VERSIONS)) else None
    ensures OfferedVersions(extensions).Some? ==> KnownVersions(OfferedVersions(extensions).value)
  {
    hide NamesOf, Body;
    if |extensions| > 0 {
      FirstVersionsProjected(extensions[1..]);
      assert ProjectExts(extensions)[1..] == ProjectExts(extensions[1..]);
    }
  }

  predicate KnownVersions(ids: seq<U16>) {
    forall i :: 0 <= i < |ids| ==> IsGrease(ids[i]) || ids[i] in VERSIONS
  }

  lemma {:induction false} NumericNames(ids: seq<U16>)
    requires KnownVersions(ids)
    ensures Numeric(NamesOf(ids, VERSIONS)) == RealVersions(ids)
  {
    if |ids| > 0 {
      NumericNames(ids[1..]);
      assert NamesOf(ids, VERSIONS)[1..] == NamesOf(ids[1..], VERSIONS);
    }
  }

  /** The message from its parts: 38 bytes up to the random, then the four vectors. */
  function Framed(head: ByteString, sessionId: ByteString, ciphers: ByteString, block: ByteString): ByteString {
    head + Vector(sessionId, 1) + Vector(ciphers, 2) + Vector([0], 1) + Vector(block, 2)
  }

  lemma FieldsWritten(head: ByteString, sessionId: ByteString, ciphers: ByteString, block: ByteString)
    requires |head| == 38 && |sessionId| < 0x100 && |block| < 0x1_0000
    requires 2 <= |ciphers| < 0x1_0000 && |ciphers| % 2 == 0
    ensures Fields(Framed(head, sessionId, ciphers, block)) == Ok((ciphers, block))
  {
    var hello := Framed(head, sessionId, ciphers, block);
    WirePowers();
    hide Number, BigEndian, Power256;
    var a := 38 + 1 + |sessionId|;
    var b := a + 2 + |ciphers|;
    assert hello[38..a] == Vector(sessionId, 1) && hello[a..b] == Vector(ciphers, 2);
    assert hello[b..b + 2] == Vector([0], 1) && hello[b + 2..b + 4 + |block|] == Vector(block, 2);
    TakeVectorWritten(hello, 38, 1, sessionId);
    TakeVectorWritten(hello, a, 2, ciphers);
    TakeVectorWritten(hello, b, 1, [0]);
    TakeVectorWritten(hello, b + 2, 2, block);
  }

  lemma FieldsRead(hello: ByteString) returns (sessionId: ByteString)
    requires Fields(hello).Ok?
    ensures var (ciphers, block) := Fields(hello).value;
            && |hello| >= 38 && |sessionId| < 0x100 && |block| < 0x1_0000
            && 2 <= |ciphers| < 0x1_0000 && |ciphers| % 2 == 0
            && hello == Framed(hello[..38], sessionId, ciphers, block)
  {
    hide Number, BigEndian;
    WirePowers();
    hide Power256;
    var (id, offset1) := TakeVector(hello, 38, 1).value;
    var (ciphers, offset2) := TakeVector(hello, offset1, 2).value;
    var (compression, offset3) := TakeVector(hello, offset2, 1).value;
    var (block, offset4) := TakeVector(hello, offset3, 2).value;
    TakeVectorReads(hello, 38, 1, id, offset1);
    TakeVectorReads(hello, offset1, 2, ciphers, offset2);
    TakeVectorReads(hello, offset2, 1, compression, offset3);
    TakeVectorReads(hello, offset3, 2, block, offset4);
    sessionId := id;
    assert hello == hello[..38] + hello[38..offset1] + hello[offset1..offset2] + hello[offset2..offset3] + hello[offset3..offset4];
  }

  /** The header and the random of a hello. */
  function Head(h: Hello): ByteString {
    [1] + BigEndian(|EncodeFields(h)|, 3) + U16Bytes(h.version) + h.random
  }

  lemma EncodeParts(h: Hello)
    ensures Encode(h) == [1] + BigEndian(|EncodeFields(h)|, 3) + EncodeFields(h)
  {
    hide EncodeFields, BigEndian;
    assert Encode(h) == [1] + (BigEndian(|EncodeFields(h)|, 3) + EncodeFields(h));
  }

  lemma EncodeFramed(h: Hello)
    ensures Encode(h) == Framed(Head(h), h.sessionId, EncodePairs(h.cipherSuites), EncodeExtensions(h.extensions))
    ensures |h.random| == 32 ==> |Head(h)| == 38
  {
    EncodeParts(h);
    hide Encode, BigEndian, EncodePairs, EncodeExtensions, Vector;
  }

  lemma FramedSize(head: ByteString, sessionId: ByteString, ciphers: ByteString, block: ByteString)
    ensures |Framed(head, sessionId, ciphers, block)| ==
            |head| + |Vector(sessionId, 1)| + |Vector(ciphers, 2)| + |Vector([0], 1)| + |Vector(block, 2)|
  {
    hide Vector;
  }

  /** Importing the encoding of a well-formed hello gives its projection. */
  lemma HelloWritten(h: Hello)
    requires WellFormed(h)
    ensures ImportHello(Encode(h)) == Ok(Project(h))
  {
    hide ParseExtension, WellFormedExt, ProjectExt, Fields, Encode, NamesOf, Framed, Head, EncodeExtensions;
    var ciphers, block := EncodePairs(h.cipherSuites), EncodeExtensions(h.extensions);
    WirePowers();
    EncodeFramed(h);
    FieldsWritten(Head(h), h.sessionId, ciphers, block);
    assert block[0..] == block;
    ExtensionItemsWritten(block, 0, h.extensions);
    PairsOfEncodePairs(h.cipherSuites);
    FirstVersionsProjected(h.extensions);
    NumericNames(OfferedVersions(h.extensions).value);
  }

  /** What the importer accepts is the encoding of a well-formed hello with that projection. */
  lemma HelloRead(hello: ByteString) returns (h: Hello)
    requires ImportHello(hello).Ok? && |hello| >= 38
    requires hello[0] == 1 && Number(hello[1..4]) == |hello| - 4
    ensures WellFormed(h) && Encode(h) == hello && Ok(Project(h)) == ImportHello(hello)
  {
    hide ParseExtension, WellFormedExt, ProjectExt, Fields, Encode, NamesOf, Framed, Head, EncodeExtensions, EncodePairs;
    var (ciphers, block) := Fields(hello).value;
    WirePowers();
    var sessionId := FieldsRead(hello);
    var extensions := ExtensionItemsRead(block, 0);
    assert block[0..] == block;
    EncodePairsOfPairs(ciphers);
    FirstVersionsProjected(extensions);
    NumericNames(OfferedVersions(extensions).value);
    h := Hello(U16At(hello, 4), hello[6..38], sessionId, Pairs(ciphers), extensions);
    EncodeFramed(h);
    FramedSize(hello[..38], sessionId, ciphers, block);
    HeadRead(hello, h);
  }

  lemma HeadRead(hello: ByteString, h: Hello)
    requires |hello| >= 38 && hello[0] == 1 && Number(hello[1..4]) == |hello| - 4
    requires h.version == U16At(hello, 4) && h.random == hello[6..38]
    requires |hello| == 38 + |Vector(h.sessionId, 1)| + |Vector(EncodePairs(h.cipherSuites), 2)| + |Vector([0], 1)|
                        + |Vector(EncodeExtensions(h.extensions), 2)|
    ensures Head(h) == hello[..38]
  {
    assert |EncodeFields(h)| == |hello| - 4;
    BigEndianOfNumber(hello[1..4]);
    U16AtIff(hello, 4, h.version);
    hide Number, BigEndian, EncodeFields, U16Bytes;
    assert hello[..38] == [hello[0]] + hello[1..4] + hello[4..6] + hello[6..38];
  }

  // ---- hellos that differ only in dynamic fields --------------------------------------------------------------

  /** Equal up to the choice among the sixteen GREASE values. */
  predicate SameIds(a: seq<U16>, b: seq<U16>) {
    NormaliseAll(a) == NormaliseAll(b)
  }

  /** The two extensions differ at most in an ignored body, in GREASE choices, in public keys, or in
      the ECH config id, key and payload bytes. */
  predicate TwinExt(e: HelloExt, f: HelloExt) {
    match (e, f)
    case (Bare(k, _), Bare(l, _)) => BareName(k) == BareName(l)
    case (GroupList(a), GroupList(b)) => SameIds(a, b)
    case (SignatureList(a), SignatureList(b)) => SameIds(a, b)
    case (Delegated(a), Delegated(b)) => SameIds(a, b)
    case (Versions(a), Versions(b)) => SameIds(a, b)
    case (KeyShares(a), KeyShares(b)) => |a| == |b| && forall i :: 0 <= i < |a| ==> Normalise(a[i].group) == Normalise(b[i].group)
    case (OuterEch(k, a, _, _, p), OuterEch(l, b, _, _, q)) => k == l && a == b && |p| == |q|
    case _ => e == f
  }

  /** Nothing at all is asked of the version, the random and the session id. */
  predicate Twins(h: Hello, g: Hello) {
    && SameIds(h.cipherSuites, g.cipherSuites)
    && |h.extensions| == |g.extensions|
    && forall i :: 0 <= i < |h.extensions| ==> TwinExt(h.extensions[i], g.extensions[i])
  }

  lemma SameNames(a: seq<U16>, b: seq<U16>, names: Table)
    requires SameIds(a, b)
    ensures NamesOf(a, names) == NamesOf(b, names)
  {
    assert |a| == |NormaliseAll(a)| == |NormaliseAll(b)| == |b|;
    forall i | 0 <= i < |a|
      ensures TlsName(a[i], names) == TlsName(b[i], names)
    {
      hide Hex, NamesOf;
      assert Normalise(a[i]) == NormaliseAll(a)[i] == NormaliseAll(b)[i] == Normalise(b[i]);
    }
  }

  lemma {:induction false} SameShares(a: seq<Share>, b: seq<Share>)
    requires |a| == |b| && forall i :: 0 <= i < |a| ==> Normalise(a[i].group) == Normalise(b[i].group)
    ensures ProjectShares(a) == ProjectShares(b)
  {
    if |a| > 0 {
      assert TlsName(a[0].group, GROUPS) == TlsName(b[0].group, GROUPS);
      SameShares(a[1..], b[1..]);
    }
  }

  lemma TwinExtProjects(e: HelloExt, f: HelloExt)
    requires WellFormedExt(e) && WellFormedExt(f) && TwinExt(e, f)
    ensures ProjectExt(e) == ProjectExt(f)
  {
    hide NamesOf, SameIds, Body;
    match (e, f)
    case (GroupList(a), GroupList(b)) => SameNames(a, b, GROUPS);
    case (SignatureList(a), SignatureList(b)) => SameNames(a, b, SIGNATURES);
    case (Delegated(a), Delegated(b)) => SameNames(a, b, SIGNATURES);
    case (Versions(a), Versions(b)) => SameNames(a, b, VERSIONS);
    case (KeyShares(a), KeyShares(b)) => SameShares(a, b);
    case _ =>
  }

  lemma {:induction false} TwinExtsProject(a: seq<HelloExt>, b: seq<HelloExt>)
    requires |a| == |b| && forall i :: 0 <= i < |a| ==> WellFormedExt(a[i]) && WellFormedExt(b[i]) && TwinExt(a[i], b[i])
    ensures ProjectExts(a) == ProjectExts(b)
  {
    hide WellFormedExt, TwinExt, ProjectExt;
    if |a| > 0 {
      TwinExtProjects(a[0], b[0]);
      TwinExtsProject(a[1..], b[1..]);
    }
  }

  /** The projection does not depend on the dynamic fields. */
  lemma TwinsProject(h: Hello, g: Hello)
    requires WellFormed(h) && WellFormed(g) && Twins(h, g)
    ensures Project(h) == Project(g)
  {
    hide WellFormedExt, TwinExt, SameIds, NamesOf, EncodeExtensions;
    SameNames(h.cipherSuites, g.cipherSuites, CIPHERS);
    TwinExtsProject(h.extensions, g.extensions);
    FirstVersionsProjected(h.extensions);
    FirstVersionsProjected(g.extensions);
    NumericNames(OfferedVersions(h.extensions).value);
    NumericNames(OfferedVersions(g.extensions).value);
  }

  // ---- and in nothing else --------------------------------------------------------------------------------------

  lemma {:induction false} SharesUnambiguous(a: seq<Share>, b: seq<Share>)
    requires ProjectShares(a) == ProjectShares(b)
    ensures |a| == |b| && forall i :: 0 <= i < |a| ==> Normalise(a[i].group) == Normalise(b[i].group)
  {
    hide TlsName, Normalise, Injective, UsableTable;
    if a != [] && b != [] {
      var restA, restB := ProjectShares(a[1..]), ProjectShares(b[1..]);
      assert ProjectShares(a)[1..] == restA && ProjectShares(b)[1..] == restB;
      assert ProjectShares(a)[0] == ShareDecl(TlsName(a[0].group, GROUPS), None);
      assert ProjectShares(b)[0] == ShareDecl(TlsName(b[0].group, GROUPS), None);
      GroupsUsable();
      GroupsInjective();
      NameUnambiguous(a[0].group, b[0].group, GROUPS);
      SharesUnambiguous(a[1..], b[1..]);
      assert forall i :: 0 < i < |a| ==> a[i] == a[1..][i - 1];
      assert forall i :: 0 < i < |b| ==> b[i] == b[1..][i - 1];
    }
  }

  lemma CompressionUnambiguous(a: seq<U16>, b: seq<U16>)
    requires forall i :: 0 <= i < |a| ==> a[i] in CERT_COMPRESSION
    requires forall i :: 0 <= i < |b| ==> b[i] in CERT_COMPRESSION
    requires CompressionNames(a) == CompressionNames(b)
    ensures a == b
  {
    assert |a| == |CompressionNames(a)| == |b|;
    assert |CERT_COMPRESSION[1]| == 4 && |CERT_COMPRESSION[2]| == 6 && CERT_COMPRESSION[1][1] == 'l' && CERT_COMPRESSION[3][1] == 's';
    forall i | 0 <= i < |a|
      ensures a[i] == b[i]
    {
      assert CERT_COMPRESSION[a[i]] == CompressionNames(a)[i] == CompressionNames(b)[i] == CERT_COMPRESSION[b[i]];
    }
  }

  lemma KindsUnambiguous(k: U16, l: U16)
    requires k in PROTOCOL_KINDS && l in PROTOCOL_KINDS && PROTOCOL_KINDS[k] == PROTOCOL_KINDS[l]
    ensures k == l
  {
  }

  /** Extensions of different shapes are declared under different names. */
  lemma SameShape(e: HelloExt, f: HelloExt)
    requires WellFormedExt(e) && WellFormedExt(f) && ProjectExt(e) == ProjectExt(f)
    ensures match (e, f)
            case (Bare(_, _), Bare(_, _)) => true
            case (GroupList(_), GroupList(_)) => true
            case (Points, Points) => true
            case (SignatureList(_), SignatureList(_)) => true
            case (ProtocolNames(k, _), ProtocolNames(l, _)) => k == l
            case (Compression(_), Compression(_)) => true
            case (SizeLimit(_), SizeLimit(_)) => true
            case (Delegated(_), Delegated(_)) => true
            case (Versions(_), Versions(_)) => true
            case (PskModes, PskModes) => true
            case (KeyShares(_), KeyShares(_)) => true
            case (OuterEch(_, _, _, _, _), OuterEch(_, _, _, _, _)) => true
            case _ => false
  {
    hide NamesOf, Body, CompressionNames, FitsList, ProjectShares;
    if e.ProtocolNames? && f.ProtocolNames? {
      KindsUnambiguous(e.protocolKind, f.protocolKind);
    }
  }

  lemma SameDeclarationTwins(e: HelloExt, f: HelloExt)
    requires WellFormedExt(e) && WellFormedExt(f) && ProjectExt(e) == ProjectExt(f)
    ensures TwinExt(e, f)
  {
    SameShape(e, f);
    hide NamesOf, Body, CompressionNames, FitsList, ProjectShares, NormaliseAll, Normalise;
    match (e, f)
    case (GroupList(a), GroupList(b)) =>
      GroupsUsable();
      GroupsInjective();
      NamesUnambiguous(a, b, GROUPS);
    case (SignatureList(a), SignatureList(b)) =>
      SignaturesUsable();
      SignaturesInjective();
      NamesUnambiguous(a, b, SIGNATURES);
    case (Delegated(a), Delegated(b)) =>
      SignaturesUsable();
      SignaturesInjective();
      NamesUnambiguous(a, b, SIGNATURES);
    case (Versions(a), Versions(b)) =>
      VersionsUsable();
      VersionsInjective();
      NamesUnambiguous(a, b, VERSIONS);
    case (Compression(a), Compression(b)) => CompressionUnambiguous(a, b);
    case (KeyShares(a), KeyShares(b)) => SharesUnambiguous(a, b);
    case _ =>
  }

  lemma {:induction false} SameDeclarationsTwins(a: seq<HelloExt>, b: seq<HelloExt>)
    requires (forall i :: 0 <= i < |a| ==> WellFormedExt(a[i])) && (forall i :: 0 <= i < |b| ==> WellFormedExt(b[i]))
    requires ProjectExts(a) == ProjectExts(b)
    ensures |a| == |b| && forall i :: 0 <= i < |a| ==> TwinExt(a[i], b[i])
  {
    hide WellFormedExt, TwinExt, ProjectExt;
    assert |a| == |ProjectExts(a)| == |b|;
    if a != [] {
      assert ProjectExts(a)[1..] == ProjectExts(a[1..]) && ProjectExts(b)[1..] == ProjectExts(b[1..]);
      assert ProjectExts(a)[0] == ProjectExt(a[0]) && ProjectExts(b)[0] == ProjectExt(b[0]);
      SameDeclarationTwins(a[0], b[0]);
      SameDeclarationsTwins(a[1..], b[1..]);
      assert forall i :: 0 < i < |a| ==> a[i] == a[1..][i - 1] && b[i] == b[1..][i - 1];
    }
  }

  /** The projection forgets the dynamic fields and nothing else. */
  lemma ProjectionForgets(h: Hello, g: Hello)
    requires WellFormed(h) && WellFormed(g)
    ensures Project(h) == Project(g) <==> Twins(h, g)
  {
    hide WellFormedExt, TwinExt, NormaliseAll, NamesOf, EncodeExtensions, RealVersions, Injective, UsableTable;
    if Twins(h, g) {
      TwinsProject(h, g);
    }
    if Project(h) == Project(g) {
      CiphersUsable();
      CiphersInjective();
      NamesUnambiguous(h.cipherSuites, g.cipherSuites, CIPHERS);
      SameDeclarationsTwins(h.extensions, g.extensions);
    }
  }
}
