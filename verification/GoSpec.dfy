/** The Go validator of tls_spec.go: from a declaration to the pieces of a uTLS ClientHelloSpec. */
module GoSpec {
  import opened Bytes
  import opened Sequences
  import opened TlsNames
  import opened Options
  import opened TlsDecl
  import opened TlsRegistry

  const VERSION_TLS12: U16 := 0x0303
  const VERSION_TLS13: U16 := 0x0304

  datatype GoError =
    | Counts | Compression | BadIdentifier | BadExtension | Duplicate | MissingRequired | UnsupportedVersion
    | VersionConflict | NoKeyShare | NoTls13Cipher | NoRealGroup | ShareOutsideGroups | AlpsOutsideAlpn | TwoAlps

  datatype GoResult<+T> = Good(value: T) | Bad(error: GoError) {
    predicate IsFailure() {
      Bad?
    }

    function PropagateFailure<U>(): GoResult<U>
      requires Bad?
    {
      Bad(error)
    }

    function Extract(): T
      requires Good?
    {
      value
    }
  }

  /** The uTLS name dictionaries, and the shuffle it applies to Chrome extension lists. */
  datatype Library = Library(
    ciphers: Dictionary, groups: Dictionary, signatures: Dictionary, versions: Dictionary,
    shuffle: seq<Resolved> -> seq<Resolved>)

  /** The dictionaries give the names their numbers; `X25519MLKEM768` is not looked up. */
  ghost predicate AgreesWithRegistry(lib: Library) {
    && Gives(lib.ciphers, CIPHER_IDS)
    && Gives(lib.groups, GROUP_IDS)
    && Gives(lib.signatures, SIGNATURE_IDS)
    && Gives(lib.versions, VERSION_IDS)
  }

  /** A dictionary with the registered numbers undoes the importer's tables. */
  lemma TablesAgree(lib: Library)
    requires AgreesWithRegistry(lib)
    ensures Agrees(lib.ciphers, CIPHERS) && Agrees(lib.groups, GROUPS)
    ensures Agrees(lib.signatures, SIGNATURES) && Agrees(lib.versions, VERSIONS)
  {
    CiphersRegistered();
    GroupsRegistered();
    SignaturesRegistered();
    VersionsRegistered();
    hide Agrees, Gives, SaysTheSame;
    GivesAgrees(lib.ciphers, CIPHERS, CIPHER_IDS);
    GivesAgrees(lib.groups, GROUPS, GROUP_IDS);
    GivesAgrees(lib.signatures, SIGNATURES, SIGNATURE_IDS);
    GivesAgrees(lib.versions, VERSIONS, VERSION_IDS);
  }

  /** What an extension holds once its names are resolved. */
  datatype Parsed =
    | Versions(versions: seq<U16>)
    | Groups(groups: seq<U16>)
    | Shares(shares: seq<U16>)
    | Signatures(signatures: seq<U16>)
    | Credentials(credentials: seq<U16>)
    | AlpnList(alpn: seq<string>)
    | AlpsList(alps: seq<string>)
    | Algorithms(algorithms: seq<string>)
    | SizeLimit(limit: int)
    | GreaseEch(suites: Option<seq<(int, int)>>, configIds: Option<seq<int>>, payloadLens: Option<seq<int>>)
    | Fixed

  /** A uTLS extension object: its kind and its content. */
  datatype Resolved = Resolved(name: ExtName, content: Parsed)

  // ---- one extension -----------------------------------------------------------------------------

  /** `tlsNames` with its limit of 64. */
  predicate BoundedNames(names: seq<string>) {
    && 0 < |names| <= 64
    && (forall i :: 0 <= i < |names| ==> names[i] != "" && |names[i]| <= 128)
    && forall i, j :: 0 <= i < j < |names| ==> names[i] != names[j]
  }

  const SHARE_GROUPS: set<U16> := {0x001D, 0x0017, 0x0018, 0x0019, 0x11EC}

  /** One entry of `client_shares`: a GREASE share may carry the key [0], a real one no key. */
  function ShareGroup(share: ShareDecl, groups: Dictionary): GoResult<U16> {
    var id := ResolveName(share.group, groups);
    if id.ValueError? then Bad(BadIdentifier)
    else if id.value == GREASE_PLACEHOLDER then
      if share.keyExchange.Some? && share.keyExchange.value != [0] then Bad(BadExtension) else Good(id.value)
    else if share.keyExchange.Some? || id.value !in SHARE_GROUPS then Bad(BadExtension)
    else Good(id.value)
  }

  function ShareGroups(shares: seq<ShareDecl>, groups: Dictionary): GoResult<seq<U16>> {
    if |shares| == 0 then Good([]) else
    var front :- ShareGroups(shares[..|shares| - 1], groups);
    var id :- ShareGroup(shares[|shares| - 1], groups);
    if id in front then Bad(BadExtension) else Good(front + [id])
  }

  /** The id of a share: a GREASE share has no key or the key [0], a real one has no key and is one of
      x25519, secp256r1, secp384r1, secp521r1 and X25519MLKEM768. */
  predicate ShareResolves(share: ShareDecl, groups: Dictionary, id: U16) {
    && ResolveName(share.group, groups) == Ok(id)
    && if id == 0x0A0A then share.keyExchange == None || share.keyExchange == Some([0])
       else share.keyExchange == None && id in {29, 23, 24, 25, 4588}
  }

  /** What `parseTLSKeyShares` promises. */
  ghost predicate SharesResolve(shares: seq<ShareDecl>, groups: Dictionary, ids: seq<U16>) {
    && 1 <= |shares| <= 4 && |ids| == |shares| && Distinct(ids)
    && forall i :: 0 <= i < |shares| ==> ShareResolves(shares[i], groups, ids[i])
  }

  lemma ShareExact(share: ShareDecl, groups: Dictionary, id: U16)
    ensures ShareGroup(share, groups) == Good(id) <==> ShareResolves(share, groups, id)
  {
  }

  lemma {:induction false} SharesResolved(shares: seq<ShareDecl>, groups: Dictionary, ids: seq<U16>)
    ensures ShareGroups(shares, groups) == Good(ids) <==>
            |ids| == |shares| && Distinct(ids) && forall i :: 0 <= i < |shares| ==> ShareResolves(shares[i], groups, ids[i])
    decreases |shares|
  {
    hide ShareGroup, ShareResolves;
    if shares != [] {
      var n := |shares| - 1;
      if |ids| == |shares| {
        SharesResolved(shares[..n], groups, ids[..n]);
        ShareExact(shares[n], groups, ids[n]);
        assert ids == ids[..n] + [ids[n]];
        DistinctLast(ids[..n], ids[n]);
        hide Distinct;
      } else if ShareGroups(shares[..n], groups).Good? {
        SharesResolved(shares[..n], groups, ShareGroups(shares[..n], groups).value);
      }
    }
  }

  lemma SharesExact(shares: seq<ShareDecl>, groups: Dictionary)
    ensures 1 <= |shares| <= 4 ==> forall ids :: ShareGroups(shares, groups) == Good(ids) <==> SharesResolve(shares, groups, ids)
  {
    hide ShareGroups, ShareResolves, Distinct;
    if 1 <= |shares| <= 4 {
      forall ids
        ensures ShareGroups(shares, groups) == Good(ids) <==> SharesResolve(shares, groups, ids)
      {
        SharesResolved(shares, groups, ids);
      }
    }
  }

  /** `parseTLSKeyShares`. */
  method ParseTlsKeyShares(shares: seq<ShareDecl>, groups: Dictionary) returns (r: GoResult<seq<U16>>)
    ensures r == if |shares| == 0 || |shares| > 4 then Bad(BadExtension) else ShareGroups(shares, groups)
    ensures r.Good? ==> SharesResolve(shares, groups, r.value)
    ensures r.Bad? ==> forall ids :: !SharesResolve(shares, groups, ids)
  {
    if |shares| == 0 || |shares| > 4 {
      return Bad(BadExtension);
    }
    var ids: seq<U16> := [];
    assert Distinct(ids);
    hide ShareGroup, Distinct, SharesResolve;
    var seen: set<U16> := {};
    for i := 0 to |shares|
      invariant ShareGroups(shares[..i], groups) == Good(ids)
      invariant |ids| == i && Distinct(ids) && forall id :: id in seen <==> id in ids
    {
      assert shares[..i + 1][..i] == shares[..i];
      var id := ShareGroup(shares[i], groups);
      if id.Bad? || id.value in seen {
        SharesFail(shares, groups, i + 1);
        SharesExact(shares, groups);
        return if id.Bad? then Bad(id.error) else Bad(BadExtension);
      }
      DistinctLast(ids, id.value);
      seen := seen + {id.value};
      ids := ids + [id.value];
    }
    assert shares[..|shares|] == shares;
    SharesExact(shares, groups);
    return Good(ids);
  }

  lemma {:induction false} SharesFail(shares: seq<ShareDecl>, groups: Dictionary, n: nat)
    requires n <= |shares| && ShareGroups(shares[..n], groups).Bad?
    ensures ShareGroups(shares, groups) == ShareGroups(shares[..n], groups)
    decreases |shares|
  {
    if n < |shares| {
      var front := shares[..|shares| - 1];
      assert front[..n] == shares[..n];
      SharesFail(front, groups, n);
    } else {
      assert shares[..n] == shares;
    }
  }

  function Ids(names: seq<string>, dictionary: Dictionary): GoResult<seq<U16>> {
    var ids := ResolveNames(names, dictionary);
    if ids.Ok? then Good(ids.value) else Bad(BadIdentifier)
  }

  /** uTLS decodes the version names itself: no duplicate test. */
  function VersionIds(names: seq<string>, versions: Dictionary): GoResult<seq<U16>> {
    if |names| == 0 then Good([]) else
    var front :- VersionIds(names[..|names| - 1], versions);
    var name := names[|names| - 1];
    if name == "GREASE" then Good(front + [GREASE_PLACEHOLDER])
    else if name in versions then Good(front + [versions[name]])
    else Bad(BadExtension)
  }

  const PLAIN_NAMES: set<ExtName> :=
    {GREASE, ServerName, StatusRequest, Sct, ExtendedMasterSecret, SessionTicket, RenegotiationInfo}

  /** `parseTLSExtension` for the names with one string list. */
  function ParseListed(name: ExtName, names: seq<string>, lib: Library): GoResult<Parsed> {
    if !BoundedNames(names) then Bad(BadExtension) else
    match name
    case SupportedGroups =>
      var ids :- Ids(names, lib.groups);
      Good(Groups(ids))
    case SignatureAlgorithms =>
      var ids :- Ids(names, lib.signatures);
      Good(Signatures(ids))
    case DelegatedCredentials =>
      var ids :- Ids(names, lib.signatures);
      Good(Credentials(ids))
    case EcPointFormats => if names == ["uncompressed"] then Good(Fixed) else Bad(BadExtension)
    case SupportedVersions =>
      var ids :- VersionIds(names, lib.versions);
      Good(Versions(ids))
    case PskKeyExchangeModes => if names == ["psk_dhe_ke"] then Good(Fixed) else Bad(BadExtension)
    case CompressCertificate =>
      if forall i :: 0 <= i < |names| ==> names[i] in {"brotli", "zlib", "zstd"} then Good(Algorithms(names)) else Bad(BadExtension)
    case Alpn => if OnlyProtocols(names) then Good(AlpnList(names)) else Bad(BadExtension)
    case ApplicationSettings => if OnlyProtocols(names) then Good(AlpsList(names)) else Bad(BadExtension)
    case ApplicationSettingsNew => if OnlyProtocols(names) then Good(AlpsList(names)) else Bad(BadExtension)
    case _ => Bad(BadExtension)
  }

  predicate OnlyProtocols(names: seq<string>) {
    forall i :: 0 <= i < |names| ==> names[i] in {"h2", "http/1.1"}
  }

  predicate DistinctBounded<T(==)>(list: Option<seq<T>>, limit: nat) {
    list.Some? ==>
      && 0 < |list.value| <= limit
      && forall i, j :: 0 <= i < j < |list.value| ==> list.value[i] != list.value[j]
  }

  /** `parseTLSGREASEECH`. */
  predicate EchAccepted(suites: Option<seq<(int, int)>>, configIds: Option<seq<int>>, lens: Option<seq<int>>) {
    && DistinctBounded(suites, 8) && DistinctBounded(configIds, 32) && DistinctBounded(lens, 8)
    && (suites.Some? ==> forall i :: 0 <= i < |suites.value| ==> suites.value[i].0 in {1, 2, 3} && suites.value[i].1 in {1, 2, 3})
    && (configIds.Some? ==> forall i :: 0 <= i < |configIds.value| ==> 0 <= configIds.value[i] <= 255)
    && (lens.Some? ==> forall i :: 0 <= i < |lens.value| ==> 0 < lens.value[i] <= 4096)
  }

  /** `parseTLSExtension`. */
  function ParseExt(e: TlsExt, lib: Library): GoResult<Parsed> {
    match e
    case Plain(name) =>
      if name in PLAIN_NAMES then Good(Fixed)
      else if name == EncryptedClientHello then Good(GreaseEch(None, None, None))
      else Bad(BadExtension)
    case Listed(name, names) => ParseListed(name, names, lib)
    case Limited(limit) => if 64 <= limit <= 16385 then Good(SizeLimit(limit)) else Bad(BadExtension)
    case Shared(shares) =>
      if |shares| == 0 || |shares| > 4 then Bad(BadExtension) else
      var ids :- ShareGroups(shares, lib.groups);
      Good(Shares(ids))
    case Ech(suites, configIds, lens) =>
      if EchAccepted(suites, configIds, lens) then Good(GreaseEch(suites, configIds, lens)) else Bad(BadExtension)
  }

  // ---- the extension loop ------------------------------------------------------------------------------

  /** The variables of the loop in `clientHelloSpec`. */
  datatype Scan = Scan(
    seen: map<ExtName, nat>, versions: seq<U16>, groups: seq<U16>, shares: seq<U16>, alpn: seq<string>, alps: seq<string>,
    extensions: seq<Resolved>)

  const START: Scan := Scan(map[], [], [], [], [], [], [])

  function Seen(seen: map<ExtName, nat>, name: ExtName): nat {
    if name in seen then seen[name] else 0
  }

  /** One round: the count test comes before the assignment. */
  function Absorb(scan: Scan, e: TlsExt, lib: Library): GoResult<Scan> {
    var parsed :- ParseExt(e, lib);
    var count := Seen(scan.seen, e.Name()) + 1;
    if (count > 1 && e.Name() != GREASE) || count > 2 then Bad(Duplicate) else
    var next := scan.(seen := scan.seen[e.Name() := count], extensions := scan.extensions + [Resolved(e.Name(), parsed)]);
    Good(match parsed
         case Versions(ids) => next.(versions := ids)
         case Groups(ids) => next.(groups := ids)
         case Shares(ids) => next.(shares := ids)
         case AlpnList(names) => next.(alpn := names)
         case AlpsList(names) => next.(alps := names)
         case _ => next)
  }

  function ScanAll(extensions: seq<TlsExt>, lib: Library): GoResult<Scan> {
    if |extensions| == 0 then Good(START) else
    var front :- ScanAll(extensions[..|extensions| - 1], lib);
    Absorb(front, extensions[|extensions| - 1], lib)
  }

  lemma {:induction false} ScanFails(extensions: seq<TlsExt>, lib: Library, n: nat)
    requires n <= |extensions| && ScanAll(extensions[..n], lib).Bad?
    ensures ScanAll(extensions, lib) == ScanAll(extensions[..n], lib)
    decreases |extensions|
  {
    hide Absorb;
    if n < |extensions| {
      var front := extensions[..|extensions| - 1];
      assert front[..n] == extensions[..n];
      ScanFails(front, lib, n);
    } else {
      assert extensions[..n] == extensions;
    }
  }

  method ScanExtensions(extensions: seq<TlsExt>, lib: Library) returns (r: GoResult<Scan>)
    ensures r == ScanAll(extensions, lib)
  {
    hide Absorb;
    var scan := START;
    for i := 0 to |extensions|
      invariant ScanAll(extensions[..i], lib) == Good(scan)
    {
      assert extensions[..i + 1][..i] == extensions[..i];
      var next := Absorb(scan, extensions[i], lib);
      if next.Bad? {
        ScanFails(extensions, lib, i + 1);
        return Bad(next.error);
      }
      scan := next.value;
    }
    assert extensions[..|extensions|] == extensions;
    return Good(scan);
  }

  // ---- the version range -----------------------------------------------------------------------------------

  /** The running minimum and maximum, started at the opposite ends. */
  function Range(versions: seq<U16>): GoResult<(U16, U16)> {
    if |versions| == 0 then Good((VERSION_TLS13, VERSION_TLS12)) else
    var (low, high) :- Range(versions[..|versions| - 1]);
    var version := versions[|versions| - 1];
    if version == GREASE_PLACEHOLDER then Good((low, high))
    else if version != VERSION_TLS12 && version != VERSION_TLS13 then Bad(UnsupportedVersion)
    else Good((if version < low then version else low, if version > high then version else high))
  }

  lemma {:induction false} RangeFails(versions: seq<U16>, n: nat)
    requires n <= |versions| && Range(versions[..n]).Bad?
    ensures Range(versions) == Range(versions[..n])
    decreases |versions|
  {
    if n < |versions| {
      var front := versions[..|versions| - 1];
      assert front[..n] == versions[..n];
      RangeFails(front, n);
    } else {
      assert versions[..n] == versions;
    }
  }

  method VersionRange(versions: seq<U16>) returns (r: GoResult<(U16, U16)>)
    ensures r == Range(versions)
    ensures r.Good? ==> forall v :: v in versions && v != GREASE_PLACEHOLDER ==> r.value.0 <= v <= r.value.1
  {
    var low, high := VERSION_TLS13, VERSION_TLS12;
    for i := 0 to |versions|
      invariant Range(versions[..i]) == Good((low, high))
      invariant forall v :: v in versions[..i] && v != GREASE_PLACEHOLDER ==> low <= v <= high
    {
      var version := versions[i];
      assert versions[..i + 1] == versions[..i] + [version];
      if version == GREASE_PLACEHOLDER {
        continue;
      }
      if version != VERSION_TLS12 && version != VERSION_TLS13 {
        RangeFails(versions, i + 1);
        return Bad(UnsupportedVersion);
      }
      low := if version < low then version else low;
      high := if version > high then version else high;
    }
    assert versions[..|versions|] == versions;
    return Good((low, high));
  }

  // ---- the whole specification ------------------------------------------------------------------------------

  datatype HelloSpec = HelloSpec(
    ciphers: seq<U16>, extensions: seq<Resolved>, minVersion: U16, maxVersion: U16,
    versions: seq<U16>, groups: seq<U16>, shares: seq<U16>, alpn: seq<string>, alps: seq<string>)

  const TLS13_CIPHERS: set<U16> := {0x1301, 0x1302, 0x1303}

  /** The checks behind the loop, in their order. */
  function Check(s: TlsSpec, ciphers: seq<U16>, scan: Scan, lib: Library): GoResult<HelloSpec> {
    if |scan.versions| == 0 || Seen(scan.seen, SignatureAlgorithms) == 0 then Bad(MissingRequired) else
    var (low, high) :- Range(scan.versions);
    if low > high || (s.minVers != 0 && s.minVers != low) || (s.maxVers != 0 && s.maxVers != high) then Bad(VersionConflict)
    else if high == VERSION_TLS13 && |scan.shares| == 0 then Bad(NoKeyShare)
    else if high == VERSION_TLS13 && !(exists c :: c in TLS13_CIPHERS && c in ciphers) then Bad(NoTls13Cipher)
    else if |scan.shares| == 1 && scan.shares[0] == GREASE_PLACEHOLDER then Bad(NoRealGroup)
    else if exists i :: 0 <= i < |scan.shares| && scan.shares[i] !in scan.groups then Bad(ShareOutsideGroups)
    else if exists i :: 0 <= i < |scan.alps| && scan.alps[i] !in scan.alpn then Bad(AlpsOutsideAlpn)
    else if Seen(scan.seen, ApplicationSettings) > 0 && Seen(scan.seen, ApplicationSettingsNew) > 0 then Bad(TwoAlps)
    else Good(HelloSpec(ciphers, if s.shuffleExtensions then lib.shuffle(scan.extensions) else scan.extensions,
                        low, high, scan.versions, scan.groups, scan.shares, scan.alpn, scan.alps))
  }

  /** `clientHelloSpec`. */
  function ClientHelloSpec(s: TlsSpec, lib: Library): GoResult<HelloSpec> {
    if |s.cipherSuites| == 0 || |s.cipherSuites| > 128 || |s.extensions| == 0 || |s.extensions| > 64 then Bad(Counts)
    else if s.compressionMethods != ["NULL"] then Bad(Compression) else
    var ciphers :- Ids(s.cipherSuites, lib.ciphers);
    var scan :- ScanAll(s.extensions, lib);
    Check(s, ciphers, scan, lib)
  }

  method BuildClientHelloSpec(s: TlsSpec, lib: Library) returns (r: GoResult<HelloSpec>)
    ensures r == ClientHelloSpec(s, lib)
    ensures r.Good? ==> Coherent(s, r.value, lib)
  {
    ghost var expected := ClientHelloSpec(s, lib);
    if expected.Good? {
      AcceptedIsCoherent(s, lib);
    }
    hide Check, Coherent, ScanAll, ResolveNames;
    if |s.cipherSuites| == 0 || |s.cipherSuites| > 128 || |s.extensions| == 0 || |s.extensions| > 64 {
      return Bad(Counts);
    }
    if s.compressionMethods != ["NULL"] {
      return Bad(Compression);
    }
    var ciphers := TlsIds(s.cipherSuites, lib.ciphers);
    if ciphers.ValueError? {
      return Bad(BadIdentifier);
    }
    var scan :- ScanExtensions(s.extensions, lib);
    r := Check(s, ciphers.value, scan, lib);
  }

  // ---- accepted specifications are coherent ------------------------------------------------------------------

  ghost predicate Subset<T>(a: seq<T>, b: seq<T>) {
    forall x :: x in a ==> x in b
  }

  /** The declared extensions in their order, each with its content. */
  ghost predicate Declared(extensions: seq<TlsExt>, built: seq<Resolved>, lib: Library) {
    && |built| == |extensions|
    && forall i :: 0 <= i < |built| ==>
         built[i].name == extensions[i].Name() && ParseExt(extensions[i], lib) == Good(built[i].content)
  }

  ghost predicate Coherent(s: TlsSpec, spec: HelloSpec, lib: Library) {
    && ResolvesTo(s.cipherSuites, lib.ciphers, spec.ciphers)
    && Distinct(spec.shares) && Subset(spec.shares, spec.groups)
    && Subset(spec.alps, spec.alpn)
    && SpansExactly(spec.versions, spec.minVersion, spec.maxVersion)
    && (s.minVers in {0, spec.minVersion} && s.maxVers in {0, spec.maxVersion})
    && (spec.maxVersion == VERSION_TLS13 ==>
          && (exists g :: g in spec.shares && g != GREASE_PLACEHOLDER)
          && (exists c :: c in TLS13_CIPHERS && c in spec.ciphers))
    && (!s.shuffleExtensions ==> Declared(s.extensions, spec.extensions, lib))
    && OncePerName(s.extensions)
  }

  /** The two bounds occur among the non-GREASE versions and enclose them all. */
  ghost predicate SpansExactly(versions: seq<U16>, low: U16, high: U16) {
    && low in versions && low != GREASE_PLACEHOLDER
    && high in versions && high != GREASE_PLACEHOLDER
    && forall v :: v in versions && v != GREASE_PLACEHOLDER ==> low <= v <= high
  }

  function Occurrences(extensions: seq<TlsExt>, name: ExtName): nat {
    if |extensions| == 0 then 0
    else Occurrences(extensions[..|extensions| - 1], name) + if extensions[|extensions| - 1].Name() == name then 1 else 0
  }

  /** No extension twice, and GREASE at most twice. */
  ghost predicate OncePerName(extensions: seq<TlsExt>) {
    forall name :: Occurrences(extensions, name) <= if name == GREASE then 2 else 1
  }

  /** What the loop keeps: the order, the counts and distinct shares. */
  ghost predicate ScanInvariant(scan: Scan, extensions: seq<TlsExt>, lib: Library) {
    && Declared(extensions, scan.extensions, lib)
    && Distinct(scan.shares)
    && forall name :: Seen(scan.seen, name) == Occurrences(extensions, name) <= if name == GREASE then 2 else 1
  }

  lemma {:induction false} ShareGroupsDistinct(shares: seq<ShareDecl>, groups: Dictionary)
    requires ShareGroups(shares, groups).Good?
    ensures Distinct(ShareGroups(shares, groups).value)
  {
    hide ShareGroup;
    if |shares| > 0 {
      ShareGroupsDistinct(shares[..|shares| - 1], groups);
    }
  }

  lemma ParsedShares(e: TlsExt, lib: Library)
    requires ParseExt(e, lib).Good? && ParseExt(e, lib).value.Shares?
    ensures Distinct(ParseExt(e, lib).value.shares)
  {
    hide BoundedNames, ResolveNames, VersionIds, EchAccepted, OnlyProtocols;
    match e
    case Shared(shares) => ShareGroupsDistinct(shares, lib.groups);
    case _ =>
  }

  lemma AbsorbKeeps(scan: Scan, front: seq<TlsExt>, e: TlsExt, lib: Library)
    requires ScanInvariant(scan, front, lib) && Absorb(scan, e, lib).Good?
    ensures ScanInvariant(Absorb(scan, e, lib).value, front + [e], lib)
  {
    hide ParseExt;
    if ParseExt(e, lib).value.Shares? {
      ParsedShares(e, lib);
    }
    var next := Absorb(scan, e, lib).value;
    assert (front + [e])[..|front|] == front;
    forall name
      ensures Seen(next.seen, name) == Occurrences(front + [e], name) <= if name == GREASE then 2 else 1
    {
      assert Seen(next.seen, name) == if name == e.Name() then Seen(scan.seen, name) + 1 else Seen(scan.seen, name);
    }
  }

  lemma {:induction false} ScanKeeps(extensions: seq<TlsExt>, lib: Library)
    requires ScanAll(extensions, lib).Good?
    ensures ScanInvariant(ScanAll(extensions, lib).value, extensions, lib)
  {
    if |extensions| > 0 {
      hide Absorb, ScanInvariant;
      var front, e := extensions[..|extensions| - 1], extensions[|extensions| - 1];
      ScanKeeps(front, lib);
      assert extensions == front + [e];
      AbsorbKeeps(ScanAll(front, lib).value, front, e, lib);
    }
  }

  lemma {:induction false} RangeSpans(versions: seq<U16>)
    requires Range(versions).Good?
    ensures var (low, high) := Range(versions).value;
            low <= high ==> SpansExactly(versions, low, high)
    ensures var (low, high) := Range(versions).value;
            low > high ==> low == VERSION_TLS13 && high == VERSION_TLS12 && forall v :: v in versions ==> v == GREASE_PLACEHOLDER
  {
    if |versions| > 0 {
      var front, v := versions[..|versions| - 1], versions[|versions| - 1];
      RangeSpans(front);
      assert versions == front + [v];
    }
  }

  lemma AcceptedIsCoherent(s: TlsSpec, lib: Library)
    requires ClientHelloSpec(s, lib).Good?
    ensures Coherent(s, ClientHelloSpec(s, lib).value, lib)
  {
    hide ResolveName, Absorb, ParseExt, Occurrences;
    var scan := ScanAll(s.extensions, lib).value;
    ScanKeeps(s.extensions, lib);
    RangeSpans(scan.versions);
    var spec := ClientHelloSpec(s, lib).value;
    assert ResolvesTo(s.cipherSuites, lib.ciphers, spec.ciphers);
    assert OncePerName(s.extensions);
    assert SpansExactly(spec.versions, spec.minVersion, spec.maxVersion);
    assert Subset(spec.shares, spec.groups);
    assert Subset(spec.alps, spec.alpn);
    if spec.maxVersion == VERSION_TLS13 {
      RealShare(spec.shares);
    }
  }

  lemma RealShare(shares: seq<U16>)
    requires Distinct(shares) && |shares| > 0 && !(|shares| == 1 && shares[0] == GREASE_PLACEHOLDER)
    ensures exists g :: g in shares && g != GREASE_PLACEHOLDER
  {
    if shares[0] == GREASE_PLACEHOLDER {
      assert shares[1] in shares && shares[1] != shares[0];
    } else {
      assert shares[0] in shares;
    }
  }
}
