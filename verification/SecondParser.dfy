/** `parse_client_hello` of python/tls_test_support.py, a second parser written without the
    importer, and its agreement with the importer. */
module SecondParser {
  import opened Bytes
  import opened TlsNames
  import opened Options
  import opened TlsDecl
  import opened HelloImport

  datatype RawExtension = RawExtension(id: U16, data: ByteString)

  datatype Observed = Observed(
    version: nat, random: ByteString, sessionId: ByteString, cipherSuites: seq<U16>, compression: ByteString,
    extensions: seq<RawExtension>)

  /** `take(size)`: a clipped slice that must have its full length. */
  function Take(raw: ByteString, offset: nat, size: nat): Outcome<(ByteString, nat)> {
    if offset + size > |raw| then ValueError else Ok((raw[offset..offset + size], offset + size))
  }

  /** `vector(width)`: two takes. */
  function TakeTwice(raw: ByteString, offset: nat, width: nat): Outcome<(ByteString, nat)> {
    var (length, start) :- Take(raw, offset, width);
    Take(raw, start, Number(length))
  }

  function RawItems(block: ByteString, offset: nat): Outcome<seq<RawExtension>>
    requires offset <= |block|
    decreases |block| - offset
  {
    if offset == |block| then Ok([])
    else if offset + 4 > |block| then ValueError else
    var id, end := U16At(block, offset), offset + 4 + U16At(block, offset + 2);
    if end > |block| then ValueError
    else Prepend([RawExtension(id, block[offset + 4..end])], RawItems(block, end))
  }

  /** The whole parse; an exception of any kind (the `IndexError` of an empty input included) is
      `ValueError` here. */
  function Observe(raw: ByteString): Outcome<Observed> {
    if |raw| < 1 || raw[0] != 1 || Number(Clip(raw, 1, 4)) != |raw| - 4 then ValueError else
    var (version, offset1) :- Take(raw, 4, 2);
    var (random, offset2) :- Take(raw, offset1, 32);
    var (sessionId, offset3) :- TakeTwice(raw, offset2, 1);
    var (ciphers, offset4) :- TakeTwice(raw, offset3, 2);
    var (compression, offset5) :- TakeTwice(raw, offset4, 1);
    var (block, offset6) :- TakeTwice(raw, offset5, 2);
    if offset6 != |raw| then ValueError else
    var extensions :- RawItems(block, 0);
    Ok(Observed(Number(version), random, sessionId, Pairs(ciphers), compression, extensions))
  }

  /** Python's clipped slice `s[from:to]`. */
  function Clip(s: ByteString, from: nat, to: nat): ByteString
    requires from <= to
  {
    if to <= |s| then s[from..to] else if from <= |s| then s[from..] else []
  }

  lemma ClippedNumber(block: ByteString, offset: nat)
    requires offset + 2 <= |block|
    ensures Number(Clip(block, offset, offset + 2)) == U16At(block, offset)
  {
    NumberOfTwo(block[offset..offset + 2]);
  }

  /** The extension loop of `parse_client_hello`: it slices first and tests afterwards. */
  method RawExtensions(block: ByteString) returns (r: Outcome<seq<RawExtension>>)
    ensures r == RawItems(block, 0)
  {
    hide Number, Prepend;
    var items: seq<RawExtension> := [];
    var offset := 0;
    while offset < |block|
      invariant 0 <= offset <= |block|
      invariant RawItems(block, 0) == Prepend(items, RawItems(block, offset))
    {
      var kind := Number(Clip(block, offset, offset + 2));
      var length := Number(Clip(block, offset + 2, offset + 4));
      var data := Clip(block, offset + 4, offset + 4 + length);
      if offset + 4 <= |block| {
        ClippedNumber(block, offset);
        ClippedNumber(block, offset + 2);
      }
      if |data| != length || offset + 4 > |block| {
        return ValueError;
      }
      PrependTwice(items, RawExtension(kind, data), RawItems(block, offset + 4 + length));
      items := items + [RawExtension(kind, data)];
      offset := offset + 4 + length;
    }
    return Ok(items);
  }

  method ParseClientHello(raw: ByteString) returns (r: Outcome<Observed>)
    ensures r == Observe(raw)
  {
    hide Number, Pairs, Prepend, RawItems;
    if |raw| < 1 || raw[0] != 1 || Number(Clip(raw, 1, 4)) != |raw| - 4 {
      return ValueError;
    }
    var offset := 4;
    var version :- Take(raw, offset, 2);
    var random :- Take(raw, version.1, 32);
    var sessionId :- TakeTwice(raw, random.1, 1);
    var ciphers :- TakeTwice(raw, sessionId.1, 2);
    var compression :- TakeTwice(raw, ciphers.1, 1);
    var block :- TakeTwice(raw, compression.1, 2);
    if block.1 != |raw| {
      return ValueError;
    }
    var extensions :- RawExtensions(block.0);
    return Ok(Observed(Number(version.0), random.0, sessionId.0, Pairs(ciphers.0), compression.0, extensions));
  }

  /** The two ways to read a vector are the same function. */
  lemma SameVector(raw: ByteString, offset: nat, width: nat)
    ensures TakeTwice(raw, offset, width) == TakeVector(raw, offset, width)
  {
  }

  /** The wire kinds and the extension names they are declared under. */
  function KindName(kind: U16): Option<ExtName> {
    if BareName(kind).Some? then BareName(kind)
    else if kind == 10 then Some(SupportedGroups)
    else if kind == 11 then Some(EcPointFormats)
    else if kind == 13 then Some(SignatureAlgorithms)
    else if kind == 16 then Some(Alpn)
    else if kind == 27 then Some(CompressCertificate)
    else if kind == 28 then Some(RecordSizeLimit)
    else if kind == 34 then Some(DelegatedCredentials)
    else if kind == 43 then Some(SupportedVersions)
    else if kind == 45 then Some(PskKeyExchangeModes)
    else if kind == 51 then Some(KeyShare)
    else if kind == 17513 then Some(ApplicationSettings)
    else if kind == 17613 then Some(ApplicationSettingsNew)
    else if kind == 65037 then Some(EncryptedClientHello)
    else None
  }

  lemma ParsedName(kind: U16, data: ByteString)
    requires ParseExtension(kind, data).Ok?
    ensures Some(ParseExtension(kind, data).value.Name()) == KindName(kind)
  {
    hide TakeVector, Uint16List, Shares, Protocols, NamesOf;
  }

  /** Element by element: same extension, same bytes, same name. */
  ghost predicate SameExtensions(raw: seq<RawExtension>, parsed: seq<TlsExt>) {
    && |raw| == |parsed|
    && forall i :: 0 <= i < |raw| ==>
         && KindName(raw[i].id) == Some(parsed[i].Name())
         && ParseExtension(raw[i].id, raw[i].data) == Ok(parsed[i])
  }

  lemma {:induction false} ItemsAgree(block: ByteString, cursor: nat)
    requires cursor <= |block| && ExtensionItems(block, cursor).Ok?
    ensures RawItems(block, cursor).Ok?
    ensures SameExtensions(RawItems(block, cursor).value, ExtensionItems(block, cursor).value)
    decreases |block| - cursor
  {
    hide ParseExtension, KindName, U16At;
    if cursor < |block| {
      var kind, next := U16At(block, cursor), cursor + 4 + U16At(block, cursor + 2);
      ItemsAgree(block, next);
      ParsedName(kind, block[cursor + 4..next]);
      var raw, parsed := RawItems(block, cursor).value, ExtensionItems(block, cursor).value;
      assert raw[1..] == RawItems(block, next).value && parsed[1..] == ExtensionItems(block, next).value;
      forall i | 0 < i < |raw|
        ensures raw[i] == raw[1..][i - 1] && parsed[i] == parsed[1..][i - 1]
      {
      }
    }
  }

  /** Whatever handshake the importer accepts, the second parser accepts, and its cipher and extension
      ids, mapped through the name tables, are the importer's lists. */
  lemma ParsersAgree(hello: ByteString)
    requires |hello| >= 4 && hello[0] == 1 && Number(hello[1..4]) == |hello| - 4
    requires ImportHello(hello).Ok?
    ensures Observe(hello).Ok?
    ensures NamesOf(Observe(hello).value.cipherSuites, CIPHERS) == ImportHello(hello).value.cipherSuites
    ensures SameExtensions(Observe(hello).value.extensions, ImportHello(hello).value.extensions)
    ensures Observe(hello).value.compression == [0]
  {
    hide ParseExtension, KindName, Number, TakeTwice, TakeVector, NamesOf, SameExtensions, ExtensionItems, RawItems;
    SameVector(hello, 38, 1);
    var offset1 := TakeVector(hello, 38, 1).value.1;
    SameVector(hello, offset1, 2);
    var offset2 := TakeVector(hello, offset1, 2).value.1;
    SameVector(hello, offset2, 1);
    var offset3 := TakeVector(hello, offset2, 1).value.1;
    SameVector(hello, offset3, 2);
    ItemsAgree(Fields(hello).value.1, 0);
  }
}
