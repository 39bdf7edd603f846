/** From the wire through the Python importer into the Go validator: which code points arrive. */
module ImporterToGo {
  import opened Bytes
  import opened Sequences
  import opened TlsNames
  import opened Options
  import opened TlsDecl
  import opened HelloImport
  import C = HelloCodec
  import opened TlsRegistry
  import opened WireMeaning
  import opened GoSpec

  // ---- the loop keeps the one occurrence of every extension -----------------------------------------

  const ALPS_NAMES: set<ExtName> := {ApplicationSettings, ApplicationSettingsNew}

  /** The two extensions are kept in the same variable of the loop. */
  predicate SameSlot(a: ExtName, b: ExtName) {
    a == b || (a in ALPS_NAMES && b in ALPS_NAMES)
  }

  lemma ParsedKind(e: TlsExt, lib: Library)
    requires ParseExt(e, lib).Good?
    ensures var p := ParseExt(e, lib).value;
            && (p.Versions? ==> e.Name() == SupportedVersions) && (p.Groups? ==> e.Name() == SupportedGroups)
            && (p.Shares? ==> e.Name() == KeyShare) && (p.AlpnList? ==> e.Name() == Alpn)
            && (p.AlpsList? ==> e.Name() in ALPS_NAMES)
  {
    hide BoundedNames, ResolveNames, VersionIds, EchAccepted, OnlyProtocols, ShareGroups;
  }

  /** The scan carries what the parsed extension says. */
  predicate Carries(scan: Scan, p: Parsed) {
    match p
    case Versions(ids) => scan.versions == ids
    case Groups(ids) => scan.groups == ids
    case Shares(ids) => scan.shares == ids
    case AlpnList(names) => scan.alpn == names
    case AlpsList(names) => scan.alps == names
    case _ => true
  }

  lemma AbsorbCarries(scan: Scan, e: TlsExt, p: Parsed, name: ExtName, lib: Library)
    requires Absorb(scan, e, lib).Good? && Carries(scan, p) && !SameSlot(name, e.Name())
    requires (p.Versions? ==> name == SupportedVersions) && (p.Groups? ==> name == SupportedGroups)
    requires (p.Shares? ==> name == KeyShare) && (p.AlpnList? ==> name == Alpn) && (p.AlpsList? ==> name in ALPS_NAMES)
    ensures Carries(Absorb(scan, e, lib).value, p)
  {
    ParsedKind(e, lib);
    hide ParseExt;
  }

  lemma ScanOk(extensions: seq<TlsExt>, lib: Library, i: nat)
    requires ScanAll(extensions, lib).Good? && i < |extensions|
    ensures ScanAll(extensions[..i], lib).Good? && Absorb(ScanAll(extensions[..i], lib).value, extensions[i], lib).Good?
    ensures ScanAll(extensions[..i + 1], lib) == Absorb(ScanAll(extensions[..i], lib).value, extensions[i], lib)
    ensures ParseExt(extensions[i], lib).Good?
  {
    hide ParseExt;
    assert extensions[..i + 1][..i] == extensions[..i];
    if ScanAll(extensions[..i + 1], lib).Bad? {
      ScanFails(extensions, lib, i + 1);
    }
  }

  lemma {:induction false} CountsPrefix(extensions: seq<TlsExt>, name: ExtName, n: nat)
    requires n <= |extensions|
    ensures Occurrences(extensions[..n], name) <= Occurrences(extensions, name)
    ensures forall i :: n <= i < |extensions| && extensions[i].Name() == name ==>
              Occurrences(extensions[..n], name) < Occurrences(extensions, name)
    decreases |extensions|
  {
    if n < |extensions| {
      var front := extensions[..|extensions| - 1];
      assert front[..n] == extensions[..n];
      CountsPrefix(front, name, n);
    } else {
      assert extensions[..n] == extensions;
    }
  }

  /** An extension other than GREASE occurs at one index only. */
  lemma UniqueName(extensions: seq<TlsExt>, i: nat, j: nat)
    requires OncePerName(extensions) && i < j < |extensions| && extensions[i].Name() == extensions[j].Name()
    ensures extensions[i].Name() == GREASE
  {
    var name := extensions[i].Name();
    CountsPrefix(extensions, name, j);
    CountsPrefix(extensions[..j], name, i);
    assert extensions[..j][i] == extensions[i];
  }

  lemma AbsorbOwn(scan: Scan, e: TlsExt, lib: Library)
    requires Absorb(scan, e, lib).Good?
    ensures ParseExt(e, lib).Good? && Carries(Absorb(scan, e, lib).value, ParseExt(e, lib).value)
  {
    hide ParseExt;
  }

  lemma ScanOnce(extensions: seq<TlsExt>, lib: Library)
    requires ScanAll(extensions, lib).Good?
    ensures OncePerName(extensions)
  {
    ScanKeeps(extensions, lib);
    hide Occurrences, ScanAll;
  }

  /** No later extension overwrites what the loop keeps of this one. */
  predicate SlotFree(extensions: seq<TlsExt>, i: nat)
    requires i < |extensions|
  {
    forall j :: i < j < |extensions| ==> !SameSlot(extensions[i].Name(), extensions[j].Name())
  }

  lemma SlotFreeAt(extensions: seq<TlsExt>, i: nat, j: nat)
    requires i < j < |extensions| && SlotFree(extensions, i)
    ensures !SameSlot(extensions[i].Name(), extensions[j].Name())
  {
  }

  lemma OnceIsFree(extensions: seq<TlsExt>, i: nat)
    requires OncePerName(extensions) && i < |extensions| && extensions[i].Name() != GREASE
    requires extensions[i].Name() in ALPS_NAMES ==>
               !(Occurrences(extensions, ApplicationSettings) > 0 && Occurrences(extensions, ApplicationSettingsNew) > 0)
    ensures SlotFree(extensions, i)
  {
    hide Occurrences, OncePerName;
    forall j | i < j < |extensions|
      ensures !SameSlot(extensions[i].Name(), extensions[j].Name())
    {
      if extensions[i].Name() == extensions[j].Name() {
        UniqueName(extensions, i, j);
      } else {
        CountsPrefix(extensions, extensions[i].Name(), 0);
        CountsPrefix(extensions, extensions[j].Name(), 0);
        assert Occurrences(extensions, extensions[i].Name()) > 0 && Occurrences(extensions, extensions[j].Name()) > 0;
      }
    }
  }

  /** In an accepted declaration every extension but GREASE has its slot to itself. */
  lemma AcceptedIsFree(s: TlsSpec, lib: Library, i: nat)
    requires ClientHelloSpec(s, lib).Good? && i < |s.extensions| && s.extensions[i].Name() != GREASE
    ensures SlotFree(s.extensions, i)
  {
    var scan := ScanAll(s.extensions, lib).value;
    hide ScanAll, ResolveNames, ParseExt, Occurrences, SlotFree, Check;
    ScanKeeps(s.extensions, lib);
    ScanOnce(s.extensions, lib);
    OneAlps(s, Ids(s.cipherSuites, lib.ciphers).value, scan, lib);
    hide OncePerName, Ids;
    OnceIsFree(s.extensions, i);
  }

  lemma OneAlps(s: TlsSpec, ciphers: seq<U16>, scan: Scan, lib: Library)
    requires Check(s, ciphers, scan, lib).Good?
    ensures !(Seen(scan.seen, ApplicationSettings) > 0 && Seen(scan.seen, ApplicationSettingsNew) > 0)
  {
    hide Range, Seen;
  }

  lemma {:induction false} ScanCarries(extensions: seq<TlsExt>, lib: Library, i: nat, n: nat)
    requires ScanAll(extensions, lib).Good? && i < n <= |extensions| && SlotFree(extensions, i)
    ensures ParseExt(extensions[i], lib).Good? && ScanAll(extensions[..n], lib).Good?
    ensures Carries(ScanAll(extensions[..n], lib).value, ParseExt(extensions[i], lib).value)
    decreases n
  {
    hide *;
    ScanOk(extensions, lib, i);
    ScanOk(extensions, lib, n - 1);
    var scan := ScanAll(extensions[..n - 1], lib).value;
    if i + 1 == n {
      AbsorbOwn(scan, extensions[i], lib);
    } else {
      assert !SameSlot(extensions[i].Name(), extensions[n - 1].Name()) by {
        SlotFreeAt(extensions, i, n - 1);
      }
      ScanCarries(extensions, lib, i, n - 1);
      ParsedKind(extensions[i], lib);
      AbsorbCarries(scan, extensions[n - 1], ParseExt(extensions[i], lib).value, extensions[i].Name(), lib);
    }
  }

  // ---- versions ------------------------------------------------------------------------------------------

  lemma VersionIdInverse(id: U16, versions: Dictionary)
    requires Agrees(versions, VERSIONS) && (IsGrease(id) || id in VERSIONS)
    ensures var name := TlsName(id, VERSIONS);
            if IsGrease(id) then name == "GREASE" else name != "GREASE" && name in versions && versions[name] == id
  {
    VersionsUsable();
    assert !IsGrease(id) ==> VERSIONS[id] != "X25519MLKEM768";
  }

  lemma {:induction false} VersionIdsInverse(ids: seq<U16>, versions: Dictionary)
    requires C.KnownVersions(ids) && Agrees(versions, VERSIONS)
    ensures VersionIds(NamesOf(ids, VERSIONS), versions) == Good(NormaliseAll(ids))
  {
    hide TlsName, Agrees, IsGrease;
    if |ids| > 0 {
      var front, id := ids[..|ids| - 1], ids[|ids| - 1];
      VersionIdsInverse(front, versions);
      VersionIdInverse(id, versions);
      assert NamesOf(ids, VERSIONS)[..|ids| - 1] == NamesOf(front, VERSIONS);
      assert NormaliseAll(ids) == NormaliseAll(front) + [Normalise(id)];
    }
  }

  lemma {:induction false} RangeOfKnown(versions: seq<U16>)
    requires forall i :: 0 <= i < |versions| ==> versions[i] in {GREASE_PLACEHOLDER, VERSION_TLS12, VERSION_TLS13}
    ensures Range(versions).Good?
  {
    if |versions| > 0 {
      RangeOfKnown(versions[..|versions| - 1]);
    }
  }

  /** Go's running minimum and maximum over the resolved versions are Python's `min` and `max` over
      the numeric ones. */
  lemma SameRange(ids: seq<U16>)
    requires C.KnownVersions(ids) && C.RealVersions(ids) != []
    ensures Range(NormaliseAll(ids)) == Good((Min(C.RealVersions(ids)), Max(C.RealVersions(ids))))
  {
    var all, numeric := NormaliseAll(ids), C.RealVersions(ids);
    hide C.RealVersions, Range;
    forall v
      ensures v in numeric <==> v in all && v != GREASE_PLACEHOLDER
    {
      RealMembers(ids, v);
      assert v in all && v != GREASE_PLACEHOLDER ==> exists i :: 0 <= i < |ids| && all[i] == v;
      if i :| 0 <= i < |ids| && ids[i] == v && !IsGrease(ids[i]) {
        assert all[i] == v;
      }
    }
    RangeOfKnown(all);
    RangeSpans(all);
    var (low, high) := Range(all).value;
    assert numeric[0] in all && numeric[0] != GREASE_PLACEHOLDER;
    assert SpansExactly(all, low, high);
    assert Min(numeric) in all && low in numeric && Min(numeric) == low;
    assert Max(numeric) in all && high in numeric && Max(numeric) == high;
  }

  // ---- end to end ------------------------------------------------------------------------------------------

  lemma {:induction false} FirstIndex(extensions: seq<C.HelloExt>) returns (i: nat)
    requires forall k :: 0 <= k < |extensions| ==> C.WellFormedExt(extensions[k])
    requires C.OfferedVersions(extensions).Some?
    ensures i < |extensions| && extensions[i] == C.Versions(C.OfferedVersions(extensions).value)
    ensures C.KnownVersions(C.OfferedVersions(extensions).value)
  {
    hide C.Body;
    if extensions[0].Versions? {
      i := 0;
    } else {
      var k := FirstIndex(extensions[1..]);
      i := k + 1;
    }
  }

  lemma {:induction false} ProjectAt(extensions: seq<C.HelloExt>, i: nat)
    requires forall k :: 0 <= k < |extensions| ==> C.WellFormedExt(extensions[k])
    requires i < |extensions|
    ensures C.ProjectExts(extensions)[i] == C.ProjectExt(extensions[i])
  {
    hide C.WellFormedExt, C.ProjectExt;
    if i > 0 {
      ProjectAt(extensions[1..], i - 1);
    }
  }

  /** The versions the Go loop ends with are the offered ones. */
  lemma ScannedVersions(h: C.Hello, lib: Library)
    requires C.WellFormed(h) && AgreesWithRegistry(lib) && ScanAll(C.Project(h).extensions, lib).Good?
    ensures C.OfferedVersions(h.extensions).Some?
    ensures ScanAll(C.Project(h).extensions, lib).value.versions == NormaliseAll(C.OfferedVersions(h.extensions).value)
  {
    hide *;
    var exts := C.Project(h).extensions;
    var i, ids := VersionsPlace(h);
    ListedVersions(exts[i], ids);
    TablesAgree(lib);
    ScanOnce(exts, lib);
    OnceIsFree(exts, i);
    ScanCarries(exts, lib, i, |exts|);
    VersionIdsInverse(ids, lib.versions);
    VersionsCarried(ScanAll(exts[..|exts|], lib).value, ids, lib);
    assert exts[..|exts|] == exts;
  }

  lemma VersionsPlace(h: C.Hello) returns (i: nat, ids: seq<U16>)
    requires C.WellFormed(h)
    ensures C.OfferedVersions(h.extensions) == Some(ids) && C.KnownVersions(ids)
    ensures i < |C.Project(h).extensions| && C.Project(h).extensions[i] == Listed(SupportedVersions, NamesOf(ids, VERSIONS))
  {
    hide NamesOf, C.Body, C.EncodeExtensions, C.RealVersions, C.KnownVersions, C.OfferedVersions, C.FitsList, IsGrease;
    i := FirstIndex(h.extensions);
    ids := C.OfferedVersions(h.extensions).value;
    ProjectAt(h.extensions, i);
  }

  lemma ListedVersions(e: TlsExt, ids: seq<U16>)
    requires e == Listed(SupportedVersions, NamesOf(ids, VERSIONS))
    ensures e.Name() != GREASE && e.Name() !in ALPS_NAMES
  {
  }

  lemma VersionsCarried(scan: Scan, ids: seq<U16>, lib: Library)
    requires VersionIds(NamesOf(ids, VERSIONS), lib.versions) == Good(NormaliseAll(ids))
    requires ParseExt(Listed(SupportedVersions, NamesOf(ids, VERSIONS)), lib).Good?
    requires Carries(scan, ParseExt(Listed(SupportedVersions, NamesOf(ids, VERSIONS)), lib).value)
    ensures scan.versions == NormaliseAll(ids)
  {
    hide NamesOf, NormaliseAll, VersionIds, BoundedNames, ResolveNames;
  }

  /** For an imported declaration the branches about the version range are dead: the range Python
      computed is the one Go computes. */
  lemma VersionBranchesUnreachable(h: C.Hello, lib: Library)
    requires C.WellFormed(h) && AgreesWithRegistry(lib)
    ensures ClientHelloSpec(C.Project(h), lib) != Bad(VersionConflict)
    ensures ClientHelloSpec(C.Project(h), lib) != Bad(UnsupportedVersion)
    ensures ClientHelloSpec(C.Project(h), lib) != Bad(Compression)
  {
    hide *;
    var s := C.Project(h);
    ProjectedRange(h);
    if ScanAll(s.extensions, lib).Good? {
      ScannedVersions(h, lib);
    }
    RangeErrors(s, lib);
  }

  lemma ProjectedRange(h: C.Hello)
    requires C.WellFormed(h)
    ensures C.OfferedVersions(h.extensions).Some?
    ensures var s := C.Project(h);
            && Range(NormaliseAll(C.OfferedVersions(h.extensions).value)) == Good((s.minVers, s.maxVers)) && s.minVers <= s.maxVers
            && s.compressionMethods == ["NULL"]
  {
    hide C.WellFormedExt, C.EncodeExtensions, C.RealVersions, C.ProjectExts, C.OfferedVersions, Range, NormaliseAll, NamesOf;
    var i := FirstIndex(h.extensions);
    SameRange(C.OfferedVersions(h.extensions).value);
  }

  lemma RangeErrors(s: TlsSpec, lib: Library)
    requires s.compressionMethods == ["NULL"] && s.minVers <= s.maxVers
    requires ScanAll(s.extensions, lib).Good? ==> Range(ScanAll(s.extensions, lib).value.versions) == Good((s.minVers, s.maxVers))
    ensures ClientHelloSpec(s, lib) != Bad(VersionConflict)
    ensures ClientHelloSpec(s, lib) != Bad(UnsupportedVersion)
    ensures ClientHelloSpec(s, lib) != Bad(Compression)
  {
    hide Check, Range, ScanAll, ResolveNames;
    ErrorsBefore(s, lib);
    if ScanAll(s.extensions, lib).Good? {
      var scan := ScanAll(s.extensions, lib).value;
      RangeAccepted(s, scan.versions, ResolveNames(s.cipherSuites, lib.ciphers), scan, lib);
    }
  }

  lemma RangeAccepted(s: TlsSpec, versions: seq<U16>, ciphers: Outcome<seq<U16>>, scan: Scan, lib: Library)
    requires scan.versions == versions && Range(versions) == Good((s.minVers, s.maxVers)) && s.minVers <= s.maxVers
    ensures ciphers.Ok? ==> Check(s, ciphers.value, scan, lib) != Bad(VersionConflict)
    ensures ciphers.Ok? ==> Check(s, ciphers.value, scan, lib) != Bad(UnsupportedVersion)
    ensures ciphers.Ok? ==> Check(s, ciphers.value, scan, lib) != Bad(Compression)
  {
    hide Range;
  }

  /** The extension loop itself never reports a version error. */
  lemma ErrorsBefore(s: TlsSpec, lib: Library)
    ensures ScanAll(s.extensions, lib).Bad? ==> ScanAll(s.extensions, lib).error in {BadIdentifier, BadExtension, Duplicate}
  {
    ScanErrors(s.extensions, lib);
  }

  lemma {:induction false} ShareErrors(shares: seq<ShareDecl>, groups: Dictionary)
    ensures ShareGroups(shares, groups).Bad? ==> ShareGroups(shares, groups).error in {BadIdentifier, BadExtension}
  {
    hide ResolveName;
    if |shares| > 0 {
      ShareErrors(shares[..|shares| - 1], groups);
    }
  }

  lemma {:induction false} VersionErrors(names: seq<string>, versions: Dictionary)
    ensures VersionIds(names, versions).Bad? ==> VersionIds(names, versions).error == BadExtension
  {
    if |names| > 0 {
      VersionErrors(names[..|names| - 1], versions);
    }
  }

  lemma ParseErrors(e: TlsExt, lib: Library)
    ensures ParseExt(e, lib).Bad? ==> ParseExt(e, lib).error in {BadIdentifier, BadExtension}
  {
    hide BoundedNames, ResolveNames, VersionIds, EchAccepted, OnlyProtocols, ShareGroups;
    match e
    case Listed(_, names) => VersionErrors(names, lib.versions);
    case Shared(shares) => ShareErrors(shares, lib.groups);
    case _ =>
  }

  lemma {:induction false} ScanErrors(extensions: seq<TlsExt>, lib: Library)
    ensures ScanAll(extensions, lib).Bad? ==> ScanAll(extensions, lib).error in {BadIdentifier, BadExtension, Duplicate}
  {
    hide ParseExt;
    if |extensions| > 0 {
      ScanErrors(extensions[..|extensions| - 1], lib);
      ParseErrors(extensions[|extensions| - 1], lib);
    }
  }

  /** What Go must build for an extension on the wire: its number, its code points with every GREASE
      value read as 0x0A0A, and its other values. The compression algorithms stay names here, those
      of the numbers on the wire. */
  ghost predicate Delivered(e: C.HelloExt, r: Resolved)
    requires C.WellFormedExt(e)
  {
    && ExtensionNumber(r.name) == (if Reserved(C.Kind(e)) then 0x0A0A else C.Kind(e))
    && r.content == Content(e)
    && (e.Compression? ==> SpellsAll(r.content.algorithms, e.methods, COMPRESSION_IDS))
  }

  function Content(e: C.HelloExt): Parsed
    requires C.WellFormedExt(e)
  {
    match e
    case GroupList(ids) => Groups(NormaliseAll(ids))
    case SignatureList(ids) => Signatures(NormaliseAll(ids))
    case ProtocolNames(kind, names) => if kind == 16 then AlpnList(names) else AlpsList(names)
    case Compression(ids) => Algorithms(C.CompressionNames(ids))
    case SizeLimit(limit) => SizeLimit(limit)
    case Delegated(ids) => Credentials(NormaliseAll(ids))
    case Versions(ids) => Versions(NormaliseAll(ids))
    case KeyShares(shares) => Shares(NormaliseAll(ShareIds(shares)))
    case OuterEch(kdf, aead, _, _, payload) => GreaseEch(Some([(kdf, aead)]), None, Some([|payload| - 16]))
    case _ => Fixed
  }

  /** The lists that the checks of the validator compare are those of the wire. */
  predicate Compared(e: C.HelloExt, spec: HelloSpec) {
    match e
    case GroupList(ids) => spec.groups == NormaliseAll(ids)
    case KeyShares(shares) => spec.shares == NormaliseAll(ShareIds(shares))
    case Versions(ids) => spec.versions == NormaliseAll(ids)
    case ProtocolNames(kind, names) => if kind == 16 then spec.alpn == names else spec.alps == names
    case _ => true
  }

  function ShareIds(shares: seq<C.Share>): (r: seq<U16>)
    ensures |r| == |shares|
  {
    seq(|shares|, i requires 0 <= i < |shares| => shares[i].group)
  }

  lemma ShareInverse(group: U16, groups: Dictionary)
    requires Agrees(groups, GROUPS) && ShareGroup(ShareDecl(TlsName(group, GROUPS), None), groups).Good?
    ensures ShareGroup(ShareDecl(TlsName(group, GROUPS), None), groups) == Good(Normalise(group))
  {
    GroupsUsable();
    NameInverse(group, GROUPS, groups);
    hide ResolveName, TlsName, Agrees, UsableTable;
  }

  lemma {:induction false} SharesInverse(shares: seq<C.Share>, groups: Dictionary)
    requires Agrees(groups, GROUPS) && ShareGroups(C.ProjectShares(shares), groups).Good?
    ensures ShareGroups(C.ProjectShares(shares), groups) == Good(NormaliseAll(ShareIds(shares)))
  {
    hide ShareGroup, TlsName, Agrees;
    if |shares| > 0 {
      var front, last := shares[..|shares| - 1], shares[|shares| - 1];
      ProjectSharesLast(shares);
      SharesInverse(front, groups);
      ShareInverse(last.group, groups);
      assert NormaliseAll(ShareIds(shares)) == NormaliseAll(ShareIds(front)) + [Normalise(last.group)];
    }
  }

  lemma {:induction false} ProjectSharesLast(shares: seq<C.Share>)
    requires |shares| > 0
    ensures C.ProjectShares(shares) ==
            C.ProjectShares(shares[..|shares| - 1]) + [ShareDecl(TlsName(shares[|shares| - 1].group, GROUPS), None)]
  {
    hide TlsName;
    if |shares| > 1 {
      var rest := shares[1..];
      ProjectSharesLast(rest);
      assert rest[..|rest| - 1] == shares[..|shares| - 1][1..];
    } else {
      assert shares[1..] == [] && shares[..0] == [];
    }
  }

  /** Extensions whose list of names is resolved by `tlsIDs`. */
  lemma ResolvedParses(ids: seq<U16>, name: ExtName, lib: Library)
    requires AgreesWithRegistry(lib) && name in {SupportedGroups, SignatureAlgorithms, DelegatedCredentials}
    ensures var table := if name == SupportedGroups then GROUPS else SIGNATURES;
            var r := ParseListed(name, NamesOf(ids, table), lib);
            r.Good? ==> r.value == ListContent(name, NormaliseAll(ids))
  {
    hide *;
    TablesAgree(lib);
    GroupsUsable();
    SignaturesUsable();
    NamesInverse(ids, GROUPS, lib.groups);
    NamesInverse(ids, SIGNATURES, lib.signatures);
    var names := NamesOf(ids, if name == SupportedGroups then GROUPS else SIGNATURES);
    if ParseListed(name, names, lib).Good? {
      ListedContent(name, names, lib);
    }
  }

  function ListContent(name: ExtName, ids: seq<U16>): Parsed {
    if name == SupportedGroups then Groups(ids) else if name == SignatureAlgorithms then Signatures(ids) else Credentials(ids)
  }

  lemma ListedContent(name: ExtName, names: seq<string>, lib: Library)
    requires name in {SupportedGroups, SignatureAlgorithms, DelegatedCredentials} && ParseListed(name, names, lib).Good?
    ensures var ids := ResolveNames(names, if name == SupportedGroups then lib.groups else lib.signatures);
            ids.Ok? && ParseListed(name, names, lib).value == ListContent(name, ids.value)
  {
    hide ResolveNames, BoundedNames, VersionIds, OnlyProtocols;
  }

  lemma ProjectedParses(e: C.HelloExt, lib: Library)
    requires C.WellFormedExt(e) && AgreesWithRegistry(lib) && ParseExt(C.ProjectExt(e), lib).Good?
    ensures ParseExt(C.ProjectExt(e), lib).value == Content(e)
  {
    if e.GroupList? || e.SignatureList? || e.Delegated? {
      hide *;
      ResolvedListParses(e, lib);
    } else if e.Versions? || e.KeyShares? {
      hide *;
      CheckedListParses(e, lib);
    } else if e.Bare? || e.SizeLimit? || e.OuterEch? {
      hide *;
      PlainParses(e, lib);
    } else {
      hide *;
      FixedListParses(e, lib);
    }
  }

  lemma PlainParses(e: C.HelloExt, lib: Library)
    requires e.Bare? || e.SizeLimit? || e.OuterEch?
    requires C.WellFormedExt(e) && ParseExt(C.ProjectExt(e), lib).Good?
    ensures ParseExt(C.ProjectExt(e), lib).value == Content(e)
  {
    if e.Bare? {
      BareFixed(e.bareKind);
    }
    hide ParseListed, ShareGroups, C.Body, EchAccepted, IsGrease, BareName, PLAIN_NAMES;
  }

  lemma FixedListParses(e: C.HelloExt, lib: Library)
    requires e.Points? || e.PskModes? || e.ProtocolNames? || e.Compression?
    requires C.WellFormedExt(e) && ParseExt(C.ProjectExt(e), lib).Good?
    ensures ParseExt(C.ProjectExt(e), lib).value == Content(e)
  {
    hide ResolveNames, VersionIds, C.Body, BoundedNames, OnlyProtocols, C.CompressionNames;
  }

  lemma ResolvedListParses(e: C.HelloExt, lib: Library)
    requires e.GroupList? || e.SignatureList? || e.Delegated?
    requires C.WellFormedExt(e) && AgreesWithRegistry(lib) && ParseExt(C.ProjectExt(e), lib).Good?
    ensures ParseExt(C.ProjectExt(e), lib).value == Content(e)
  {
    match e {
      case GroupList(ids) => ResolvedParses(ids, SupportedGroups, lib);
      case SignatureList(ids) => ResolvedParses(ids, SignatureAlgorithms, lib);
      case Delegated(ids) => ResolvedParses(ids, DelegatedCredentials, lib);
    }
    hide ParseListed, NamesOf, NormaliseAll, C.Body, AgreesWithRegistry;
  }

  lemma CheckedListParses(e: C.HelloExt, lib: Library)
    requires e.Versions? || e.KeyShares?
    requires C.WellFormedExt(e) && AgreesWithRegistry(lib) && ParseExt(C.ProjectExt(e), lib).Good?
    ensures ParseExt(C.ProjectExt(e), lib).value == Content(e)
  {
    hide NamesOf, NormaliseAll, C.Body, AgreesWithRegistry, IsGrease, ShareGroups, VersionIds, BoundedNames, OnlyProtocols, ResolveNames, Agrees,
      C.ProjectShares;
    TablesAgree(lib);
    match e {
      case Versions(ids) => VersionIdsInverse(ids, lib.versions);
      case KeyShares(shares) => SharesInverse(shares, lib.groups);
    }
  }

  lemma BareFixed(kind: U16)
    requires IsGrease(kind) || kind in {0, 5, 18, 23, 35, 65281}
    ensures BareName(kind).Some? && BareName(kind).value in PLAIN_NAMES
  {
  }

  /** An accepted specification holds the lists of the scan. */
  lemma SpecFromScan(s: TlsSpec, lib: Library)
    requires ClientHelloSpec(s, lib).Good?
    ensures ScanAll(s.extensions, lib).Good?
    ensures SameLists(ClientHelloSpec(s, lib).value, ScanAll(s.extensions, lib).value)
  {
    hide ScanAll, Range, ResolveNames;
  }

  predicate SameLists(spec: HelloSpec, scan: Scan) {
    && spec.versions == scan.versions && spec.groups == scan.groups && spec.shares == scan.shares
    && spec.alpn == scan.alpn && spec.alps == scan.alps
  }

  lemma CarriedIsCompared(e: C.HelloExt, scan: Scan, spec: HelloSpec)
    requires C.WellFormedExt(e) && Carries(scan, Content(e)) && SameLists(spec, scan)
    ensures Compared(e, spec)
  {
    hide NormaliseAll, C.WellFormedExt;
  }

  lemma WellFormedAt(h: C.Hello, i: nat)
    requires C.WellFormed(h) && i < |h.extensions|
    ensures forall k :: 0 <= k < |h.extensions| ==> C.WellFormedExt(h.extensions[k])
    ensures C.Project(h).extensions == C.ProjectExts(h.extensions) && |C.ProjectExts(h.extensions)| == |h.extensions|
    ensures C.ProjectExts(h.extensions)[i] == C.ProjectExt(h.extensions[i])
  {
    ProjectAt(h.extensions, i);
    hide C.WellFormedExt, C.EncodeExtensions, C.RealVersions, C.ProjectExts;
  }

  lemma NotGrease(e: C.HelloExt)
    requires C.WellFormedExt(e) && !e.Bare?
    ensures C.ProjectExt(e).Name() != GREASE
  {
  }

  lemma BareCompared(e: C.HelloExt, spec: HelloSpec)
    requires e.Bare?
    ensures Compared(e, spec)
  {
  }

  lemma ComparedAt(h: C.Hello, lib: Library, i: nat)
    requires C.WellFormed(h) && AgreesWithRegistry(lib) && ClientHelloSpec(C.Project(h), lib).Good? && i < |h.extensions|
    ensures Compared(h.extensions[i], ClientHelloSpec(C.Project(h), lib).value)
  {
    hide *;
    var s, e := C.Project(h), h.extensions[i];
    var exts := s.extensions;
    WellFormedAt(h, i);
    SpecFromScan(s, lib);
    if e.Bare? {
      BareCompared(e, ClientHelloSpec(s, lib).value);
    } else {
      NotGrease(e);
      AcceptedIsFree(s, lib, i);
      ScanCarries(exts, lib, i, |exts|);
      assert exts[..|exts|] == exts;
      ProjectedParses(e, lib);
      CarriedIsCompared(e, ScanAll(exts, lib).value, ClientHelloSpec(s, lib).value);
    }
  }

  lemma AlgorithmsDelivered(e: C.HelloExt)
    requires C.WellFormedExt(e)
    ensures e.Compression? ==> Content(e).Algorithms? && SpellsAll(Content(e).algorithms, e.methods, COMPRESSION_IDS)
  {
    hide SpellsAll, C.CompressionNames, C.Body, C.FitsList;
    if e.Compression? {
      CompressionSays(e.methods);
    }
  }

  lemma DeliveredAt(h: C.Hello, lib: Library, i: nat)
    requires C.WellFormed(h) && AgreesWithRegistry(lib) && ClientHelloSpec(C.Project(h), lib).Good? && i < |h.extensions|
    ensures C.WellFormedExt(h.extensions[i])
    ensures var built := ClientHelloSpec(C.Project(h), lib).value.extensions;
            |built| == |h.extensions| && Delivered(h.extensions[i], built[i])
  {
    var s, e := C.Project(h), h.extensions[i];
    WellFormedAt(h, i);
    AcceptedIsCoherent(s, lib);
    var built := ClientHelloSpec(s, lib).value.extensions;
    assert Declared(s.extensions, built, lib);
    hide C.Project, C.ProjectExts, C.ProjectExt, C.WellFormed, C.WellFormedExt, ClientHelloSpec, ParseExt, Content, AgreesWithRegistry, Coherent;
    assert built[i].name == C.ProjectExt(e).Name() && ParseExt(C.ProjectExt(e), lib) == Good(built[i].content);
    ProjectedParses(e, lib);
    KindDeclared(e);
    AlgorithmsDelivered(e);
    hide ExtensionNumber, Reserved, SpellsAll;
  }

  /** End to end: Go builds the wire's extensions, in the wire's order, with the wire's own code points
      and values, every GREASE value read as 0x0A0A; and those are what its checks compared. */
  lemma WireToGo(h: C.Hello, lib: Library)
    requires C.WellFormed(h) && AgreesWithRegistry(lib) && ClientHelloSpec(C.Project(h), lib).Good?
    ensures var spec := ClientHelloSpec(C.Project(h), lib).value;
            && spec.ciphers == NormaliseAll(h.cipherSuites) && Distinct(spec.ciphers)
            && |spec.extensions| == |h.extensions|
            && (forall i :: 0 <= i < |h.extensions| ==>
                  C.WellFormedExt(h.extensions[i]) && Delivered(h.extensions[i], spec.extensions[i]) && Compared(h.extensions[i], spec))
  {
    hide *;
    var spec := ClientHelloSpec(C.Project(h), lib).value;
    CiphersDelivered(h, lib);
    forall i | 0 <= i < |h.extensions|
      ensures C.WellFormedExt(h.extensions[i]) && Delivered(h.extensions[i], spec.extensions[i]) && Compared(h.extensions[i], spec)
    {
      DeliveredAt(h, lib, i);
      ComparedAt(h, lib, i);
    }
  }

  lemma CiphersDelivered(h: C.Hello, lib: Library)
    requires C.WellFormed(h) && AgreesWithRegistry(lib) && ClientHelloSpec(C.Project(h), lib).Good?
    ensures var spec := ClientHelloSpec(C.Project(h), lib).value;
            spec.ciphers == NormaliseAll(h.cipherSuites) && Distinct(spec.ciphers) && |spec.extensions| == |h.extensions|
  {
    hide ClientHelloSpec, C.WellFormed, C.ProjectExts, C.WellFormedExt, UsableTable, Agrees, AgreesWithRegistry, ResolveName, NormaliseAll, NamesOf, CIPHERS,
      C.RealVersions, C.OfferedVersions, ParseExt, Occurrences;
    var s := C.Project(h);
    CiphersUsable();
    TablesAgree(lib);
    NamesInverse(h.cipherSuites, CIPHERS, lib.ciphers);
    AcceptedIsCoherent(s, lib);
    assert ResolvesTo(s.cipherSuites, lib.ciphers, ClientHelloSpec(s, lib).value.ciphers);
    ResolvedOnce(s.cipherSuites, lib.ciphers, ClientHelloSpec(s, lib).value.ciphers);
  }

  lemma ResolvedOnce(names: seq<string>, dictionary: Dictionary, ids: seq<U16>)
    requires ResolvesTo(names, dictionary, ids)
    ensures ResolveNames(names, dictionary) == Ok(ids)
  {
    hide ResolveName, ResolveNames;
    var found := ResolveNames(names, dictionary).value;
    assert forall i :: 0 <= i < |names| ==> Ok(ids[i]) == ResolveName(names[i], dictionary) == Ok(found[i]);
    assert ids == found;
  }
}
