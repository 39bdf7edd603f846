/** The ClientHello importer of python/gohttpx.py: from the bytes of a handshake message
    (section 4.1.2 of RFC 8446) to a tls_spec declaration. */
module HelloImport {
  import opened Bytes
  import opened TlsNames
  import opened Options
  import opened TlsDecl

  // ---- lists inside extensions -------------------------------------------------------------

  /** `_uint16_list`. */
  function Uint16List(data: ByteString, prefix: nat): Outcome<seq<U16>> {
    var (body, offset) :- TakeVector(data, 0, prefix);
    if offset != |data| || |body| % 2 != 0 then ValueError else Ok(Pairs(body))
  }

  /** `bytes.decode("ascii")`. */
  function DecodeAscii(item: ByteString): Outcome<string> {
    if exists b :: b in item && b >= 0x80 then ValueError
    else Ok(seq(|item|, i requires 0 <= i < |item| => item[i] as char))
  }

  const PROTOCOLS: set<string> := {"h2", "http/1.1"}

  function Prepend<T>(front: seq<T>, rest: Outcome<seq<T>>): (r: Outcome<seq<T>>)
    ensures front == [] ==> r == rest
    ensures rest == Ok([]) ==> r == Ok(front)
    ensures r.ValueError? <==> rest.ValueError?
  {
    if rest.Ok? then
      assert [] + rest.value == rest.value;
      assert front + [] == front;
      Ok(front + rest.value)
    else ValueError
  }

  lemma PrependTwice<T>(front: seq<T>, item: T, rest: Outcome<seq<T>>)
    ensures Prepend(front, Prepend([item], rest)) == Prepend(front + [item], rest)
  {
    if rest.Ok? {
      assert front + ([item] + rest.value) == front + [item] + rest.value;
    }
  }

  /** The protocol names from `cursor` to the end of a list body. */
  function ProtocolItems(body: ByteString, cursor: nat): Outcome<seq<string>>
    requires cursor <= |body|
    decreases |body| - cursor
  {
    if cursor == |body| then Ok([]) else
    var next := cursor + 1 + body[cursor] as int;
    if next > |body| then ValueError else
    var name :- DecodeAscii(body[cursor + 1..next]);
    if name !in PROTOCOLS then ValueError else Prepend([name], ProtocolItems(body, next))
  }

  function Protocols(data: ByteString): Outcome<seq<string>> {
    var (body, offset) :- TakeVector(data, 0, 2);
    if offset != |data| then ValueError else
    var names :- ProtocolItems(body, 0);
    if names == [] then ValueError else Ok(names)
  }

  /** `_protocol_list`: the loop over a cursor. */
  method ProtocolList(data: ByteString) returns (r: Outcome<seq<string>>)
    ensures r == Protocols(data)
  {
    hide DecodeAscii, Prepend;
    var vector :- TakeVector(data, 0, 2);
    var (body, offset) := vector;
    if offset != |data| {
      return ValueError;
    }
    var names: seq<string> := [];
    var cursor := 0;
    while cursor < |body|
      invariant 0 <= cursor <= |body|
      invariant ProtocolItems(body, 0) == Prepend(names, ProtocolItems(body, cursor))
    {
      var size := body[cursor] as int;
      var item := if cursor + 1 + size <= |body| then body[cursor + 1..cursor + 1 + size] else body[cursor + 1..];
      if |item| != size {
        return ValueError;
      }
      var name :- DecodeAscii(item);
      if name !in PROTOCOLS {
        return ValueError;
      }
      PrependTwice(names, name, ProtocolItems(body, cursor + 1 + size));
      names := names + [name];
      cursor := cursor + 1 + size;
    }
    if names == [] {
      return ValueError;
    }
    return Ok(names);
  }

  /** The name of a key exchange group that the importer accepts in key_share. */
  function ShareName(group: U16): Outcome<string> {
    var name := TlsName(group, GROUPS);
    if name != "GREASE" && name !in GROUPS.Values then ValueError else Ok(name)
  }

  /** The entries of a key_share body from `cursor` on; the public keys are not kept. */
  function ShareItems(body: ByteString, cursor: nat): Outcome<seq<ShareDecl>>
    requires cursor <= |body|
    decreases |body| - cursor
  {
    if cursor == |body| then Ok([])
    else if cursor + 4 > |body| then ValueError else
    var group, size := U16At(body, cursor), U16At(body, cursor + 2);
    if cursor + 4 + size > |body| then ValueError else
    var name :- ShareName(group);
    Prepend([ShareDecl(name, None)], ShareItems(body, cursor + 4 + size))
  }

  function Shares(data: ByteString): Outcome<seq<ShareDecl>> {
    var (body, offset) :- TakeVector(data, 0, 2);
    if offset != |data| || |body| == 0 then ValueError else ShareItems(body, 0)
  }

  /** `_parse_key_shares`: the loop over a cursor. */
  method ParseKeyShares(data: ByteString) returns (r: Outcome<seq<ShareDecl>>)
    ensures r == Shares(data)
  {
    hide ShareName, Prepend;
    var vector :- TakeVector(data, 0, 2);
    var (body, offset) := vector;
    if offset != |data| || |body| == 0 {
      return ValueError;
    }
    var shares: seq<ShareDecl> := [];
    var cursor := 0;
    while cursor < |body|
      invariant 0 <= cursor <= |body|
      invariant ShareItems(body, 0) == Prepend(shares, ShareItems(body, cursor))
    {
      if cursor + 4 > |body| {
        return ValueError;
      }
      var group := U16At(body, cursor);
      var size := U16At(body, cursor + 2);
      if cursor + 4 + size > |body| {
        return ValueError;
      }
      var name :- ShareName(group);
      PrependTwice(shares, ShareDecl(name, None), ShareItems(body, cursor + 4 + size));
      shares := shares + [ShareDecl(name, None)];
      cursor := cursor + 4 + size;
    }
    return Ok(shares);
  }

  /** `_parse_grease_ech`: an outer encrypted_client_hello whose key and payload are dropped. */
  function GreaseEch(data: ByteString): Outcome<TlsExt> {
    if |data| < 10 || data[0] != 0 then ValueError else
    var kdf, aead := U16At(data, 1), U16At(data, 3);
    if kdf !in {1, 2, 3} || aead !in {1, 2, 3} then ValueError else
    var (key, middle) :- TakeVector(data, 6, 2);
    var (payload, end) :- TakeVector(data, middle, 2);
    if end != |data| || |key| != 32 || |payload| <= 16 then ValueError
    else Ok(Ech(Some([(kdf, aead)]), None, Some([|payload| - 16])))
  }

  // ---- extensions --------------------------------------------------------------------------

  const CERT_COMPRESSION: map<U16, string> := map[1 := "zlib", 2 := "brotli", 3 := "zstd"]

  /** Kinds of which the importer keeps only the name; `None` when the body matters or the kind is
      not supported. */
  function BareName(kind: U16): Option<ExtName> {
    if IsGrease(kind) then Some(GREASE)
    else if kind == 0 then Some(ServerName)
    else if kind == 5 then Some(StatusRequest)
    else if kind == 18 then Some(Sct)
    else if kind == 23 then Some(ExtendedMasterSecret)
    else if kind == 35 then Some(SessionTicket)
    else if kind == 65281 then Some(RenegotiationInfo)
    else None
  }

  /** `_parse_hello_extension`. */
  function ParseExtension(kind: U16, data: ByteString): Outcome<TlsExt> {
    if BareName(kind).Some? then Ok(Plain(BareName(kind).value))
    else if kind == 10 then
      var groups :- Uint16List(data, 2);
      Ok(Listed(SupportedGroups, NamesOf(groups, GROUPS)))
    else if kind == 11 then
      if data != [1, 0] then ValueError else Ok(Listed(EcPointFormats, ["uncompressed"]))
    else if kind == 13 then
      var algorithms :- Uint16List(data, 2);
      Ok(Listed(SignatureAlgorithms, NamesOf(algorithms, SIGNATURES)))
    else if kind == 16 then
      var names :- Protocols(data);
      Ok(Listed(Alpn, names))
    else if kind == 27 then
      var algorithms :- Uint16List(data, 1);
      if exists i :: 0 <= i < |algorithms| && algorithms[i] !in CERT_COMPRESSION then ValueError
      else Ok(Listed(CompressCertificate,
                     seq(|algorithms|, i requires 0 <= i < |algorithms| && algorithms[i] in CERT_COMPRESSION =>
                         CERT_COMPRESSION[algorithms[i]])))
    else if kind == 28 then
      if |data| != 2 || !(64 <= Number(data) <= 16385) then ValueError else Ok(Limited(Number(data)))
    else if kind == 34 then
      var algorithms :- Uint16List(data, 2);
      if algorithms == [] then ValueError else Ok(Listed(DelegatedCredentials, NamesOf(algorithms, SIGNATURES)))
    else if kind == 43 then
      var ids :- Uint16List(data, 1);
      var versions := NamesOf(ids, VERSIONS);
      if exists i :: 0 <= i < |versions| && "0x" <= versions[i] then ValueError
      else Ok(Listed(SupportedVersions, versions))
    else if kind == 45 then
      if data != [1, 1] then ValueError else Ok(Listed(PskKeyExchangeModes, ["psk_dhe_ke"]))
    else if kind == 51 then
      var shares :- Shares(data);
      Ok(Shared(shares))
    else if kind == 17513 then
      var names :- Protocols(data);
      Ok(Listed(ApplicationSettings, names))
    else if kind == 17613 then
      var names :- Protocols(data);
      Ok(Listed(ApplicationSettingsNew, names))
    else if kind == 65037 then GreaseEch(data)
    else ValueError
  }

  /** The extensions from `cursor` to the end of the block. */
  function ExtensionItems(block: ByteString, cursor: nat): Outcome<seq<TlsExt>>
    requires cursor <= |block|
    decreases |block| - cursor
  {
    if cursor == |block| then Ok([])
    else if cursor + 4 > |block| then ValueError else
    var kind, next := U16At(block, cursor), cursor + 4 + U16At(block, cursor + 2);
    if next > |block| then ValueError else
    var item :- ParseExtension(kind, block[cursor + 4..next]);
    Prepend([item], ExtensionItems(block, next))
  }

  // ---- the message -------------------------------------------------------------------------

  /** `next((item["versions"] for item in extensions if item.get("name") == "supported_versions"), None)`. */
  function FirstVersions(extensions: seq<TlsExt>): Option<seq<string>> {
    if |extensions| == 0 then None
    else if extensions[0].Listed? && extensions[0].listed == SupportedVersions then Some(extensions[0].names)
    else FirstVersions(extensions[1..])
  }

  function Numeric(versions: seq<string>): seq<int> {
    if |versions| == 0 then []
    else (if versions[0] == "GREASE" then [] else [if versions[0] == "TLS 1.2" then 0x0303 else 0x0304]) + Numeric(versions[1..])
  }

  function Min(s: seq<int>): (m: int)
    requires s != []
    ensures m in s && forall x :: x in s ==> m <= x
  {
    if |s| == 1 then s[0] else
    assert s == [s[0]] + s[1..];
    if s[0] <= Min(s[1..]) then s[0] else Min(s[1..])
  }

  function Max(s: seq<int>): (m: int)
    requires s != []
    ensures m in s && forall x :: x in s ==> x <= m
  {
    if |s| == 1 then s[0] else
    assert s == [s[0]] + s[1..];
    if s[0] >= Max(s[1..]) then s[0] else Max(s[1..])
  }

  /** The cipher suites, the extensions and the version range. */
  function Finish(ciphers: ByteString, extensions: seq<TlsExt>): Outcome<TlsSpec> {
    var versions := FirstVersions(extensions);
    if versions.None? || versions.value == [] then ValueError else
    var numeric := Numeric(versions.value);
    if numeric == [] then ValueError
    else Ok(TlsSpec(NamesOf(Pairs(ciphers), CIPHERS), ["NULL"], extensions, Min(numeric), Max(numeric), false))
  }

  /** The four vectors behind the random: session id, cipher suites, compression methods and
      extensions; the cipher suites and the extension block are what the importer reads. */
  function Fields(hello: ByteString): Outcome<(ByteString, ByteString)> {
    if 4 + 34 > |hello| then ValueError else
    var (_, offset1) :- TakeVector(hello, 38, 1);
    var (ciphers, offset2) :- TakeVector(hello, offset1, 2);
    var (compression, offset3) :- TakeVector(hello, offset2, 1);
    var (extensions, offset4) :- TakeVector(hello, offset3, 2);
    if offset4 != |hello| then ValueError
    else if |ciphers| < 2 || |ciphers| % 2 != 0 || compression != [0] then ValueError
    else Ok((ciphers, extensions))
  }

  /** What `tls_spec_from_client_hello` makes of one handshake message. */
  function ImportHello(hello: ByteString): Outcome<TlsSpec> {
    var (ciphers, block) :- Fields(hello);
    var extensions :- ExtensionItems(block, 0);
    Finish(ciphers, extensions)
  }

  /** The loop over the extension block in `tls_spec_from_client_hello`. */
  method ParseExtensions(block: ByteString) returns (r: Outcome<seq<TlsExt>>)
    ensures r == ExtensionItems(block, 0)
  {
    hide ParseExtension, Prepend;
    var extensions: seq<TlsExt> := [];
    var cursor := 0;
    while cursor < |block|
      invariant 0 <= cursor <= |block|
      invariant ExtensionItems(block, 0) == Prepend(extensions, ExtensionItems(block, cursor))
    {
      if cursor + 4 > |block| {
        return ValueError;
      }
      var kind := U16At(block, cursor);
      var size := U16At(block, cursor + 2);
      var body := if cursor + 4 + size <= |block| then block[cursor + 4..cursor + 4 + size] else block[cursor + 4..];
      if |body| != size {
        return ValueError;
      }
      var item :- ParseExtension(kind, body);
      PrependTwice(extensions, item, ExtensionItems(block, cursor + 4 + size));
      extensions := extensions + [item];
      cursor := cursor + 4 + size;
    }
    return Ok(extensions);
  }

  /** `tls_spec_from_client_hello` behind `_unwrap_client_hello`. */
  method ImportHandshake(hello: ByteString) returns (r: Outcome<TlsSpec>)
    ensures r == ImportHello(hello)
  {
    hide Fields, ExtensionItems, Finish;
    var fields :- Fields(hello);
    var (ciphers, block) := fields;
    var extensions :- ParseExtensions(block);
    r := Finish(ciphers, extensions);
  }
}
