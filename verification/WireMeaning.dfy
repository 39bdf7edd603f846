/** What a declaration says about the bytes on the wire, in the numbers of the registries alone. */
module WireMeaning {
  import opened Bytes
  import opened Options
  import opened TlsNames
  import opened TlsDecl
  import opened HelloImport
  import opened HelloCodec
  import opened TlsRegistry

  /** The extension types of the IANA registry; the reserved values of GREASE count as 0x0A0A. */
  function ExtensionNumber(name: ExtName): int {
    match name
    case GREASE => 0x0A0A
    case ServerName => 0
    case StatusRequest => 5
    case SupportedGroups => 10
    case EcPointFormats => 11
    case SignatureAlgorithms => 13
    case Alpn => 16
    case Sct => 18
    case ExtendedMasterSecret => 23
    case CompressCertificate => 27
    case RecordSizeLimit => 28
    case DelegatedCredentials => 34
    case SessionTicket => 35
    case SupportedVersions => 43
    case PskKeyExchangeModes => 45
    case KeyShare => 51
    case ApplicationSettings => 17513
    case ApplicationSettingsNew => 17613
    case EncryptedClientHello => 65037
    case RenegotiationInfo => 65281
    case Unknown(_) => -1
  }

  ghost predicate ListSays(d: TlsExt, ids: seq<U16>, registry: Registry) {
    d.Listed? && SpellsAll(d.names, ids, registry)
  }

  ghost predicate ShareSays(d: ShareDecl, share: Share) {
    Spells(d.group, share.group, GROUP_IDS) && d.keyExchange == None
  }

  /** The declaration `d` says what the extension `e` has on the wire, its dynamic bytes aside. */
  ghost predicate Declares(d: TlsExt, e: HelloExt) {
    && ExtensionNumber(d.Name()) == (if Reserved(Kind(e)) then 0x0A0A else Kind(e))
    && match e
       case Bare(_, _) => d.Plain?
       case GroupList(ids) => ListSays(d, ids, GROUP_IDS)
       case Points => d.Listed? && d.names == ["uncompressed"]
       case SignatureList(ids) => ListSays(d, ids, SIGNATURE_IDS)
       case ProtocolNames(_, names) => d.Listed? && d.names == names
       case Compression(ids) => ListSays(d, ids, COMPRESSION_IDS)
       case SizeLimit(limit) => d == Limited(limit)
       case Delegated(ids) => ListSays(d, ids, SIGNATURE_IDS)
       case Versions(ids) => ListSays(d, ids, VERSION_IDS)
       case PskModes => d.Listed? && d.names == ["psk_dhe_ke"]
       case KeyShares(shares) => d.Shared? && |d.shares| == |shares| && forall i :: 0 <= i < |shares| ==> ShareSays(d.shares[i], shares[i])
       case OuterEch(kdf, aead, _, _, payload) => d == Ech(Some([(kdf, aead)]), None, Some([|payload| - 16]))
  }

  lemma {:induction false} SharesSay(shares: seq<Share>)
    ensures |ProjectShares(shares)| == |shares|
    ensures forall i :: 0 <= i < |shares| ==> ShareSays(ProjectShares(shares)[i], shares[i])
  {
    hide Spells, TlsName;
    if shares != [] {
      SharesSay(shares[1..]);
      GroupsRegistered();
      TlsNameSpells(shares[0].group, GROUPS, GROUP_IDS);
      hide SaysTheSame;
    }
  }

  lemma CompressionSays(ids: seq<U16>)
    requires forall i :: 0 <= i < |ids| ==> ids[i] in {1, 2, 3}
    ensures forall i :: 0 <= i < |ids| ==> ids[i] in CERT_COMPRESSION
    ensures SpellsAll(CompressionNames(ids), ids, COMPRESSION_IDS)
  {
    CompressionRegistered();
    assert forall id :: id in {1, 2, 3} ==> id in CERT_COMPRESSION;
    forall i | 0 <= i < |ids|
      ensures Spells(CompressionNames(ids)[i], ids[i], COMPRESSION_IDS)
    {
      assert CompressionNames(ids)[i] == CERT_COMPRESSION[ids[i]];
      hide CERT_COMPRESSION, COMPRESSION_IDS;
      assert (CERT_COMPRESSION[ids[i]], ids[i]) in COMPRESSION_IDS;
    }
  }

  lemma BareDeclared(kind: U16)
    requires IsGrease(kind) || kind in {0, 5, 18, 23, 35, 65281}
    ensures BareName(kind).Some?
    ensures ExtensionNumber(BareName(kind).value) == if Reserved(kind) then 0x0A0A else kind
  {
    ReservedIff(kind);
  }

  lemma KindDeclared(e: HelloExt)
    requires WellFormedExt(e)
    ensures ExtensionNumber(ProjectExt(e).Name()) == if Reserved(Kind(e)) then 0x0A0A else Kind(e)
  {
    hide NamesOf, Body, CompressionNames, FitsList, ProjectShares, IsGrease, BareName;
    if e.Bare? {
      hide Reserved;
      BareDeclared(e.bareKind);
    }
  }

  lemma ProjectDeclares(e: HelloExt)
    requires WellFormedExt(e)
    ensures Declares(ProjectExt(e), e)
  {
    hide NamesOf, Body, CompressionNames, FitsList, ProjectShares, IsGrease, Reserved, ExtensionNumber, SaysTheSame, Spells, SpellsAll,
      BareName, ShareSays, CIPHERS, GROUPS, SIGNATURES, VERSIONS, GROUP_IDS, SIGNATURE_IDS, VERSION_IDS, COMPRESSION_IDS, CERT_COMPRESSION;
    KindDeclared(e);
    match e
    case GroupList(ids) =>
      GroupsRegistered();
      NamesSpell(ids, GROUPS, GROUP_IDS);
    case SignatureList(ids) =>
      SignaturesRegistered();
      NamesSpell(ids, SIGNATURES, SIGNATURE_IDS);
    case Delegated(ids) =>
      SignaturesRegistered();
      NamesSpell(ids, SIGNATURES, SIGNATURE_IDS);
    case Versions(ids) =>
      VersionsRegistered();
      NamesSpell(ids, VERSIONS, VERSION_IDS);
    case Compression(ids) => CompressionSays(ids);
    case KeyShares(shares) => SharesSay(shares);
    case _ =>
  }

  /** The declaration of a whole hello: every cipher suite and every extension in its place, and the
      lowest and highest real version of the first supported_versions list. */
  ghost predicate DeclaresHello(s: TlsSpec, h: Hello) {
    && SpellsAll(s.cipherSuites, h.cipherSuites, CIPHER_IDS)
    && |s.extensions| == |h.extensions| && (forall i :: 0 <= i < |h.extensions| ==> Declares(s.extensions[i], h.extensions[i]))
    && s.compressionMethods == ["NULL"] && !s.shuffleExtensions
    && OfferedVersions(h.extensions).Some?
    && var versions := OfferedVersions(h.extensions).value;
       && (0x0303 in versions || 0x0304 in versions)
       && s.minVers == (if 0x0303 in versions then 0x0303 else 0x0304)
       && s.maxVers == (if 0x0304 in versions then 0x0304 else 0x0303)
  }

  lemma {:induction false} ExtensionsDeclared(extensions: seq<HelloExt>)
    requires forall i :: 0 <= i < |extensions| ==> WellFormedExt(extensions[i])
    ensures forall i :: 0 <= i < |extensions| ==> Declares(ProjectExts(extensions)[i], extensions[i])
  {
    hide WellFormedExt, ProjectExt, Declares;
    if extensions != [] {
      ProjectDeclares(extensions[0]);
      ExtensionsDeclared(extensions[1..]);
      forall i | 0 <= i < |extensions|
        ensures Declares(ProjectExts(extensions)[i], extensions[i])
      {
        assert i > 0 ==> extensions[i] == extensions[1..][i - 1] && ProjectExts(extensions)[i] == ProjectExts(extensions[1..])[i - 1];
      }
    }
  }

  lemma {:induction false} RealMembers(ids: seq<U16>, v: int)
    ensures v in RealVersions(ids) <==> v in ids && !IsGrease(v)
  {
    hide IsGrease;
    if ids != [] {
      RealMembers(ids[1..], v);
      assert ids == [ids[0]] + ids[1..];
    }
  }

  lemma RangeDeclared(ids: seq<U16>)
    requires RealVersions(ids) != [] && KnownVersions(ids)
    ensures 0x0303 in ids || 0x0304 in ids
    ensures Min(RealVersions(ids)) == if 0x0303 in ids then 0x0303 else 0x0304
    ensures Max(RealVersions(ids)) == if 0x0304 in ids then 0x0304 else 0x0303
  {
    var numeric := RealVersions(ids);
    assert !IsGrease(0x0303) && !IsGrease(0x0304);
    RealMembers(ids, 0x0303);
    RealMembers(ids, 0x0304);
    RealMembers(ids, Min(numeric));
    RealMembers(ids, Max(numeric));
    assert numeric[0] in numeric;
    hide RealVersions, IsGrease;
  }

  lemma ProjectionDeclares(h: Hello)
    requires WellFormed(h)
    ensures DeclaresHello(Project(h), h)
  {
    CiphersRegistered();
    NamesSpell(h.cipherSuites, CIPHERS, CIPHER_IDS);
    ExtensionsDeclared(h.extensions);
    FirstVersionsProjected(h.extensions);
    RangeDeclared(OfferedVersions(h.extensions).value);
    hide SaysTheSame, Declares, WellFormedExt, ProjectExts, RealVersions, OfferedVersions, SpellsAll, EncodeExtensions, NamesOf, IsGrease;
  }
}
