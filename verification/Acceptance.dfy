/** Exactly which ClientHello messages survive the whole way: imported by Python and then accepted by
    the Go validator. The conditions speak of the wire alone. */
module Acceptance {
  import opened Bytes
  import opened Sequences
  import opened Options
  import opened TlsNames
  import opened TlsDecl
  import opened HelloImport
  import C = HelloCodec
  import opened GoSpec
  import opened ImporterToGo
  import opened SecondParser
  import opened WireMeaning

  // ---- one extension ------------------------------------------------------------------------------

  /** A list of code points without a repetition, all GREASE values counting as one. */
  predicate ListFits(ids: seq<U16>) {
    0 < |ids| <= 64 && Distinct(NormaliseAll(ids))
  }

  predicate Acceptable(e: C.HelloExt) {
    match e
    case GroupList(ids) => ListFits(ids)
    case SignatureList(ids) => ListFits(ids)
    case Delegated(ids) => ListFits(ids)
    case Versions(ids) => ListFits(ids)
    case ProtocolNames(_, names) => |names| <= 64 && Distinct(names)
    case Compression(ids) => 0 < |ids| <= 64 && Distinct(ids)
    case KeyShares(shares) => |shares| <= 4 && Distinct(NormaliseAll(ShareIds(shares)))
    case OuterEch(_, _, _, _, payload) => |payload| - 16 <= 4096
    case _ => true
  }

  predicate ShortNames(names: Table) {
    forall id :: id in names ==> 0 < |names[id]| <= 128
  }

  /** The facts about a table that the length and repetition tests need. */
  predicate GoodTable(names: Table) {
    UsableTable(names) && Injective(names) && ShortNames(names)
  }

  lemma GroupsGood()
    ensures GoodTable(GROUPS)
  {
    GroupsUsable();
    GroupsInjective();
    hide UsableTable, Injective;
  }

  lemma SignaturesGood()
    ensures GoodTable(SIGNATURES)
  {
    SignaturesUsable();
    SignaturesInjective();
    hide UsableTable, Injective;
  }

  lemma VersionsGood()
    ensures GoodTable(VERSIONS)
  {
    VersionsUsable();
    VersionsInjective();
    hide UsableTable, Injective;
  }

  lemma SameName(a: U16, b: U16, names: Table)
    requires GoodTable(names)
    ensures TlsName(a, names) == TlsName(b, names) <==> Normalise(a) == Normalise(b)
    ensures 0 < |TlsName(a, names)| <= 128
  {
    if TlsName(a, names) == TlsName(b, names) {
      NameUnambiguous(a, b, names);
    }
    assert IsGrease(GREASE_PLACEHOLDER);
    hide UsableTable, Injective;
  }

  /** The bounds that Go puts on a list of names, for the names of code points. */
  lemma BoundedIff(ids: seq<U16>, names: Table)
    requires GoodTable(names)
    ensures BoundedNames(NamesOf(ids, names)) <==> ListFits(ids)
  {
    var texts, all := NamesOf(ids, names), NormaliseAll(ids);
    hide TlsName, Normalise, GoodTable, IsGrease;
    forall i, j | 0 <= i < |ids| && 0 <= j < |ids|
      ensures texts[i] == texts[j] <==> all[i] == all[j]
      ensures texts[i] != "" && |texts[i]| <= 128
    {
      SameName(ids[i], ids[j], names);
    }
  }

  lemma TableIff(ids: seq<U16>, names: Table, dictionary: Dictionary)
    requires GoodTable(names) && Agrees(dictionary, names)
    ensures BoundedNames(NamesOf(ids, names)) && Ids(NamesOf(ids, names), dictionary).Good? <==> ListFits(ids)
  {
    hide ResolveNames, NamesOf, NormaliseAll, BoundedNames, Agrees, Distinct, UsableTable, Injective, ShortNames;
    BoundedIff(ids, names);
    NamesInverse(ids, names, dictionary);
  }

  lemma ListedParses(name: ExtName, names: seq<string>, lib: Library)
    requires name in {SupportedGroups, SignatureAlgorithms, DelegatedCredentials}
    ensures ParseListed(name, names, lib).Good? <==>
            BoundedNames(names) && Ids(names, if name == SupportedGroups then lib.groups else lib.signatures).Good?
  {
    hide BoundedNames, Ids, VersionIds, OnlyProtocols;
  }

  lemma ListedIff(ids: seq<U16>, name: ExtName, lib: Library)
    requires AgreesWithRegistry(lib) && name in {SupportedGroups, SignatureAlgorithms, DelegatedCredentials}
    ensures var table := if name == SupportedGroups then GROUPS else SIGNATURES;
            ParseListed(name, NamesOf(ids, table), lib).Good? <==> ListFits(ids)
  {
    hide *;
    TablesAgree(lib);
    GroupsGood();
    SignaturesGood();
    TableIff(ids, GROUPS, lib.groups);
    TableIff(ids, SIGNATURES, lib.signatures);
    ListedParses(name, NamesOf(ids, if name == SupportedGroups then GROUPS else SIGNATURES), lib);
  }

  lemma VersionsIff(ids: seq<U16>, lib: Library)
    requires AgreesWithRegistry(lib) && C.KnownVersions(ids)
    ensures ParseListed(SupportedVersions, NamesOf(ids, VERSIONS), lib).Good? <==> ListFits(ids)
  {
    hide AgreesWithRegistry;
    TablesAgree(lib);
    VersionsGood();
    BoundedIff(ids, VERSIONS);
    VersionIdsInverse(ids, lib.versions);
    hide ResolveNames, NamesOf, NormaliseAll, BoundedNames, Agrees, VersionIds, OnlyProtocols, ListFits, GoodTable;
  }

  lemma ProtocolsIff(name: ExtName, names: seq<string>, lib: Library)
    requires name in {Alpn, ApplicationSettings, ApplicationSettingsNew} && names != []
    requires forall i :: 0 <= i < |names| ==> names[i] in PROTOCOLS
    ensures ParseListed(name, names, lib).Good? <==> |names| <= 64 && Distinct(names)
  {
    hide ResolveNames, Agrees, VersionIds;
    assert OnlyProtocols(names);
    assert forall i :: 0 <= i < |names| ==> names[i] != "" && |names[i]| <= 128;
  }

  lemma CompressionIff(ids: seq<U16>, lib: Library)
    requires forall i :: 0 <= i < |ids| ==> ids[i] in CERT_COMPRESSION
    ensures ParseListed(CompressCertificate, C.CompressionNames(ids), lib).Good? <==> 0 < |ids| <= 64 && Distinct(ids)
  {
    var names := C.CompressionNames(ids);
    hide ResolveNames, Agrees, VersionIds;
    assert |CERT_COMPRESSION[1]| == 4 && |CERT_COMPRESSION[2]| == 6 && |CERT_COMPRESSION[3]| == 4;
    assert CERT_COMPRESSION[1][1] == 'l' && CERT_COMPRESSION[3][1] == 's';
    forall i | 0 <= i < |ids|
      ensures names[i] != "" && |names[i]| <= 128 && names[i] in {"brotli", "zlib", "zstd"}
    {
      assert names[i] == CERT_COMPRESSION[ids[i]];
    }
    forall i, j | 0 <= i < |ids| && 0 <= j < |ids|
      ensures names[i] == names[j] <==> ids[i] == ids[j]
    {
      assert names[i] == CERT_COMPRESSION[ids[i]] && names[j] == CERT_COMPRESSION[ids[j]];
    }
  }

  lemma ShareGroupGood(group: U16, groups: Dictionary)
    requires Agrees(groups, GROUPS) && C.AcceptedGroup(group)
    ensures ShareGroup(ShareDecl(TlsName(group, GROUPS), None), groups) == Good(Normalise(group))
  {
    GroupsUsable();
    NameInverse(group, GROUPS, groups);
    hide ResolveName, TlsName, Agrees, UsableTable;
  }

  lemma {:induction false} SharesIff(shares: seq<C.Share>, groups: Dictionary)
    requires Agrees(groups, GROUPS) && forall i :: 0 <= i < |shares| ==> C.AcceptedGroup(shares[i].group)
    ensures ShareGroups(C.ProjectShares(shares), groups) ==
            if Distinct(NormaliseAll(ShareIds(shares))) then Good(NormaliseAll(ShareIds(shares))) else Bad(BadExtension)
  {
    hide ShareGroup, TlsName, Agrees, Normalise, C.AcceptedGroup;
    if |shares| > 0 {
      var front, last := shares[..|shares| - 1], shares[|shares| - 1];
      var ids, id := NormaliseAll(ShareIds(front)), Normalise(last.group);
      ProjectSharesLast(shares);
      SharesIff(front, groups);
      ShareGroupGood(last.group, groups);
      assert NormaliseAll(ShareIds(shares)) == ids + [id];
      DistinctLast(ids, id);
      hide Distinct;
    }
  }

  /** Go parses the declaration of a well-formed extension exactly under these conditions. */
  lemma ParseIff(e: C.HelloExt, lib: Library)
    requires C.WellFormedExt(e) && AgreesWithRegistry(lib)
    ensures ParseExt(C.ProjectExt(e), lib).Good? <==> Acceptable(e)
  {
    hide ResolveNames, ShareGroups, VersionIds, NamesOf, NormaliseAll, C.Body, Agrees, ListFits, ParseListed, Distinct, AgreesWithRegistry,
      IsGrease, BareName, C.ProjectShares, C.CompressionNames, C.FitsList;
    match e
    case Bare(kind, _) => BareFixed(kind);
    case GroupList(ids) => ListedIff(ids, SupportedGroups, lib);
    case SignatureList(ids) => ListedIff(ids, SignatureAlgorithms, lib);
    case Delegated(ids) => ListedIff(ids, DelegatedCredentials, lib);
    case Versions(ids) => VersionsIff(ids, lib);
    case ProtocolNames(kind, names) => ProtocolsIff(C.PROTOCOL_KINDS[kind], names, lib);
    case Compression(ids) => CompressionIff(ids, lib);
    case KeyShares(shares) => KeySharesIff(shares, lib);
    case Points => FixedListsGood(lib);
    case PskModes => FixedListsGood(lib);
    case SizeLimit(_) =>
    case OuterEch(kdf, aead, _, _, payload) => EchIff(kdf, aead, |payload| - 16);
  }

  lemma SharedParses(shares: seq<ShareDecl>, lib: Library)
    ensures ParseExt(Shared(shares), lib).Good? <==> 0 < |shares| <= 4 && ShareGroups(shares, lib.groups).Good?
  {
    hide ShareGroups, ParseListed;
  }

  lemma KeySharesIff(shares: seq<C.Share>, lib: Library)
    requires AgreesWithRegistry(lib) && shares != [] && forall i :: 0 <= i < |shares| ==> C.AcceptedGroup(shares[i].group)
    ensures ParseExt(Shared(C.ProjectShares(shares)), lib).Good? <==> |shares| <= 4 && Distinct(NormaliseAll(ShareIds(shares)))
  {
    hide *;
    TablesAgree(lib);
    SharesIff(shares, lib.groups);
    ProjectedLength(shares);
    SharedParses(C.ProjectShares(shares), lib);
  }

  lemma {:induction false} ProjectedLength(shares: seq<C.Share>)
    ensures |C.ProjectShares(shares)| == |shares|
  {
    if shares != [] {
      ProjectedLength(shares[1..]);
    }
  }

  lemma FixedListsGood(lib: Library)
    ensures ParseListed(EcPointFormats, ["uncompressed"], lib).Good?
    ensures ParseListed(PskKeyExchangeModes, ["psk_dhe_ke"], lib).Good?
  {
  }

  lemma EchIff(kdf: U16, aead: U16, size: int)
    requires kdf in {1, 2, 3} && aead in {1, 2, 3} && size > 0
    ensures EchAccepted(Some([(kdf as int, aead as int)]), None, Some([size])) <==> size <= 4096
  {
    var suites, sizes := [(kdf as int, aead as int)], [size];
    assert DistinctBounded(Some(suites), 8) && DistinctBounded(Some(sizes), 8);
    assert suites[0].0 in {1, 2, 3} && suites[0].1 in {1, 2, 3} && sizes[0] == size;
  }

  // ---- repeated extensions ------------------------------------------------------------------------------

  predicate SameKind(e: C.HelloExt, f: C.HelloExt) {
    Normalise(C.Kind(e)) == Normalise(C.Kind(f))
  }

  predicate AllWellFormed(es: seq<C.HelloExt>) {
    forall i :: 0 <= i < |es| ==> C.WellFormedExt(es[i])
  }

  /** No kind twice, and GREASE kinds at most twice. */
  predicate OnceOnWire(es: seq<C.HelloExt>) {
    && (forall i, j :: 0 <= i < j < |es| && SameKind(es[i], es[j]) ==> IsGrease(C.Kind(es[i])))
    && forall i, j, k :: 0 <= i < j < k < |es| ==>
         !(IsGrease(C.Kind(es[i])) && IsGrease(C.Kind(es[j])) && IsGrease(C.Kind(es[k])))
  }

  /** The declared name determines the kind on the wire, and the other way round. */
  lemma KindOfName(e: C.HelloExt)
    requires C.WellFormedExt(e)
    ensures ExtensionNumber(C.ProjectExt(e).Name()) == Normalise(C.Kind(e))
    ensures Some(C.ProjectExt(e).Name()) == KindName(Normalise(C.Kind(e)))
    ensures C.ProjectExt(e).Name() == GREASE <==> IsGrease(C.Kind(e))
  {
    hide NamesOf, C.Body, C.CompressionNames, C.FitsList, C.ProjectShares, ExtensionNumber, KindName, IsGrease, Normalise, BareName;
    match e
    case Bare(kind, _) => BareKind(kind);
    case ProtocolNames(kind, _) => ProtocolKind(kind);
    case _ =>
      FixedShape(e);
      FixedKindOf(C.ProjectExt(e).Name(), C.Kind(e));
  }

  lemma FixedShape(e: C.HelloExt)
    requires C.WellFormedExt(e) && !e.Bare? && !e.ProtocolNames?
    ensures ExtensionNumber(C.ProjectExt(e).Name()) == C.Kind(e) && C.Kind(e) in [10, 11, 13, 27, 28, 34, 43, 45, 51, 65037]
    ensures C.ProjectExt(e).Name() != GREASE
  {
    hide NamesOf, C.Body, C.CompressionNames, C.FitsList, C.ProjectShares, IsGrease, BareName;
  }

  lemma BareKind(kind: U16)
    requires IsGrease(kind) || kind in {0, 5, 18, 23, 35, 65281}
    ensures BareName(kind).Some?
    ensures ExtensionNumber(BareName(kind).value) == Normalise(kind) && BareName(kind) == KindName(Normalise(kind))
    ensures BareName(kind).value == GREASE <==> IsGrease(kind)
  {
    assert IsGrease(GREASE_PLACEHOLDER);
  }

  lemma ProtocolKind(kind: U16)
    requires kind in C.PROTOCOL_KINDS
    ensures ExtensionNumber(C.PROTOCOL_KINDS[kind]) == Normalise(kind) && Some(C.PROTOCOL_KINDS[kind]) == KindName(Normalise(kind))
    ensures C.PROTOCOL_KINDS[kind] != GREASE && !IsGrease(kind)
  {
    assert kind == 16 || kind == 17513 || kind == 17613;
  }

  /** The kinds of one shape each. */
  predicate FixedKind(name: ExtName, kind: U16) {
    && ExtensionNumber(name) == kind && Normalise(kind) == kind
    && KindName(kind) == Some(name) && !IsGrease(kind)
  }

  lemma FixedKindOf(name: ExtName, kind: U16)
    requires ExtensionNumber(name) == kind && kind in [10, 11, 13, 27, 28, 34, 43, 45, 51, 65037]
    ensures FixedKind(name, kind)
  {
    if kind == 65037 {
      EchKind();
    } else {
      SmallKind(kind);
    }
    hide IsGrease, Normalise;
  }

  lemma SmallKind(kind: U16)
    requires kind < 0xA00
    ensures !IsGrease(kind) && Normalise(kind) == kind
  {
  }

  lemma EchKind()
    ensures !IsGrease(65037) && Normalise(65037) == 65037
  {
  }

  lemma SameNameSameKind(e: C.HelloExt, f: C.HelloExt)
    requires C.WellFormedExt(e) && C.WellFormedExt(f)
    ensures C.ProjectExt(e).Name() == C.ProjectExt(f).Name() <==> SameKind(e, f)
  {
    KindOfName(e);
    KindOfName(f);
    hide C.ProjectExt, C.Kind, KindName, ExtensionNumber, C.WellFormedExt;
  }

  lemma {:induction false} ProjectLast(es: seq<C.HelloExt>)
    requires AllWellFormed(es) && es != []
    ensures AllWellFormed(es[..|es| - 1])
    ensures C.ProjectExts(es) == C.ProjectExts(es[..|es| - 1]) + [C.ProjectExt(es[|es| - 1])]
  {
    hide C.ProjectExt, C.WellFormedExt;
    if |es| > 1 {
      ProjectLast(es[1..]);
      assert es[1..][..|es| - 2] == es[..|es| - 1][1..];
    } else {
      assert es[1..] == [] && es[..0] == [];
    }
  }

  predicate NamedAt(extensions: seq<TlsExt>, i: int, name: ExtName) {
    0 <= i < |extensions| && extensions[i].Name() == name
  }

  /** The counts of the loop, as places in the list. */
  lemma {:induction false} OccurrencesAreIndices(extensions: seq<TlsExt>, name: ExtName)
    ensures Occurrences(extensions, name) >= 1 <==> exists i :: NamedAt(extensions, i, name)
    ensures Occurrences(extensions, name) >= 2 <==> exists i, j :: i < j && NamedAt(extensions, i, name) && NamedAt(extensions, j, name)
  {
    if extensions != [] {
      var front := extensions[..|extensions| - 1];
      OccurrencesAreIndices(front, name);
      assert forall i :: NamedAt(front, i, name) ==> NamedAt(extensions, i, name);
      assert forall i :: NamedAt(extensions, i, name) && i < |front| ==> NamedAt(front, i, name);
      assert NamedAt(extensions, |front|, name) <==> extensions[|front|].Name() == name;
      hide NamedAt;
      assert forall i :: NamedAt(extensions, i, name) ==> i <= |front| by {
        NamedBelow(extensions, name);
      }
    }
  }

  lemma NamedBelow(extensions: seq<TlsExt>, name: ExtName)
    ensures forall i :: NamedAt(extensions, i, name) ==> 0 <= i < |extensions|
  {
  }

  /** And as places on the wire. */
  lemma CountsAreIndices(es: seq<C.HelloExt>, name: ExtName)
    requires AllWellFormed(es)
    ensures Occurrences(C.ProjectExts(es), name) >= 1 <==> exists i :: 0 <= i < |es| && C.ProjectExt(es[i]).Name() == name
    ensures Occurrences(C.ProjectExts(es), name) >= 2 <==>
            exists i, j :: 0 <= i < j < |es| && C.ProjectExt(es[i]).Name() == name && C.ProjectExt(es[j]).Name() == name
  {
    hide Occurrences, C.ProjectExt, C.ProjectExts, C.WellFormedExt;
    var all := C.ProjectExts(es);
    OccurrencesAreIndices(all, name);
    forall i | 0 <= i < |es|
      ensures NamedAt(all, i, name) <==> C.ProjectExt(es[i]).Name() == name
    {
      ProjectAt(es, i);
    }
    NamedBelow(all, name);
    hide NamedAt;
    if Occurrences(all, name) >= 2 {
      var i, j :| i < j && NamedAt(all, i, name) && NamedAt(all, j, name);
      assert C.ProjectExt(es[i]).Name() == name && C.ProjectExt(es[j]).Name() == name;
    }
  }

  /** The count test of one round. */
  predicate CountFits(front: seq<C.HelloExt>, last: C.HelloExt) {
    && (forall i :: 0 <= i < |front| && SameKind(front[i], last) ==> IsGrease(C.Kind(last)))
    && forall i, j :: 0 <= i < j < |front| ==>
         !(IsGrease(C.Kind(front[i])) && IsGrease(C.Kind(front[j])) && IsGrease(C.Kind(last)))
  }

  lemma OnceSnoc(front: seq<C.HelloExt>, last: C.HelloExt)
    ensures OnceOnWire(front + [last]) <==> OnceOnWire(front) && CountFits(front, last)
  {
    hide C.Kind, Normalise;
    var es := front + [last];
    assert es[|front|] == last && forall i :: 0 <= i < |front| ==> es[i] == front[i];
    if OnceOnWire(es) {
      assert OnceOnWire(front);
      forall i | 0 <= i < |front| && SameKind(front[i], last)
        ensures IsGrease(C.Kind(last))
      {
        assert SameKind(es[i], es[|front|]);
        GreaseKinds(front[i], last);
      }
    }
    if OnceOnWire(front) && CountFits(front, last) {
      forall i, j | 0 <= i < j < |es| && SameKind(es[i], es[j])
        ensures IsGrease(C.Kind(es[i]))
      {
        GreaseKinds(es[i], es[j]);
      }
    }
  }

  lemma GreaseKinds(e: C.HelloExt, f: C.HelloExt)
    requires SameKind(e, f)
    ensures IsGrease(C.Kind(e)) <==> IsGrease(C.Kind(f))
  {
    hide C.Kind;
    assert IsGrease(GREASE_PLACEHOLDER);
  }

  lemma CountIff(front: seq<C.HelloExt>, last: C.HelloExt)
    requires AllWellFormed(front) && C.WellFormedExt(last)
    ensures var name := C.ProjectExt(last).Name(); var count := Occurrences(C.ProjectExts(front), name) + 1;
            CountFits(front, last) <==> !((count > 1 && name != GREASE) || count > 2)
  {
    var name := C.ProjectExt(last).Name();
    CountsAreIndices(front, name);
    KindOfName(last);
    hide C.ProjectExts, C.ProjectExt, C.Kind, KindName, ExtensionNumber, C.WellFormedExt, Occurrences, IsGrease, Normalise, SameKind;
    forall i | 0 <= i < |front|
      ensures C.ProjectExt(front[i]).Name() == name <==> SameKind(front[i], last)
      ensures C.ProjectExt(front[i]).Name() == GREASE <==> IsGrease(C.Kind(front[i]))
    {
      SameNameSameKind(front[i], last);
      KindOfName(front[i]);
    }
  }

  // ---- the loop -----------------------------------------------------------------------------------------

  /** What the hello offers, list by list. */
  datatype Offer = Offer(versions: seq<U16>, groups: seq<U16>, shares: seq<U16>, alpn: seq<string>, alps: seq<string>)

  function OfferOf(es: seq<C.HelloExt>): Offer {
    if es == [] then Offer([], [], [], [], [])
    else
      var front := OfferOf(es[..|es| - 1]);
      match es[|es| - 1]
      case Versions(ids) => front.(versions := NormaliseAll(ids))
      case GroupList(ids) => front.(groups := NormaliseAll(ids))
      case KeyShares(shares) => front.(shares := NormaliseAll(ShareIds(shares)))
      case ProtocolNames(kind, names) => if kind == 16 then front.(alpn := names) else front.(alps := names)
      case _ => front
  }

  predicate Scanned(scan: Scan, o: Offer) {
    scan.versions == o.versions && scan.groups == o.groups && scan.shares == o.shares && scan.alpn == o.alpn && scan.alps == o.alps
  }

  predicate AllAcceptable(es: seq<C.HelloExt>) {
    forall i :: 0 <= i < |es| ==> Acceptable(es[i])
  }

  lemma AllSnoc(front: seq<C.HelloExt>, last: C.HelloExt)
    ensures AllAcceptable(front + [last]) <==> AllAcceptable(front) && Acceptable(last)
  {
    hide Acceptable;
    var es := front + [last];
    assert es[|front|] == last && forall i :: 0 <= i < |front| ==> es[i] == front[i];
  }

  function OfferWith(o: Offer, p: Parsed): Offer {
    match p
    case Versions(ids) => o.(versions := ids)
    case Groups(ids) => o.(groups := ids)
    case Shares(ids) => o.(shares := ids)
    case AlpnList(names) => o.(alpn := names)
    case AlpsList(names) => o.(alps := names)
    case _ => o
  }

  lemma OfferSnoc(front: seq<C.HelloExt>, last: C.HelloExt)
    requires C.WellFormedExt(last)
    ensures OfferOf(front + [last]) == OfferWith(OfferOf(front), Content(last))
  {
    hide NormaliseAll, C.WellFormedExt, ShareIds, C.CompressionNames;
    assert (front + [last])[..|front|] == front && (front + [last])[|front|] == last;
  }

  lemma AbsorbLists(scan: Scan, e: TlsExt, lib: Library, o: Offer)
    requires Scanned(scan, o)
    ensures Absorb(scan, e, lib).Good? <==>
            ParseExt(e, lib).Good? && !((Seen(scan.seen, e.Name()) + 1 > 1 && e.Name() != GREASE) || Seen(scan.seen, e.Name()) + 1 > 2)
    ensures Absorb(scan, e, lib).Good? ==> Scanned(Absorb(scan, e, lib).value, OfferWith(o, ParseExt(e, lib).value))
  {
    hide ParseExt, Seen;
  }

  /** One round of the loop. */
  lemma AbsorbIff(scan: Scan, front: seq<C.HelloExt>, last: C.HelloExt, lib: Library)
    requires AllWellFormed(front) && C.WellFormedExt(last) && AgreesWithRegistry(lib)
    requires Scanned(scan, OfferOf(front))
    requires forall name :: Seen(scan.seen, name) == Occurrences(C.ProjectExts(front), name)
    ensures Absorb(scan, C.ProjectExt(last), lib).Good? <==> Acceptable(last) && CountFits(front, last)
    ensures Absorb(scan, C.ProjectExt(last), lib).Good? ==> Scanned(Absorb(scan, C.ProjectExt(last), lib).value, OfferOf(front + [last]))
  {
    hide *;
    ParseIff(last, lib);
    CountIff(front, last);
    OfferSnoc(front, last);
    AbsorbLists(scan, C.ProjectExt(last), lib, OfferOf(front));
    if ParseExt(C.ProjectExt(last), lib).Good? {
      ProjectedParses(last, lib);
    }
  }

  lemma ScanSays(extensions: seq<TlsExt>, lib: Library)
    requires ScanAll(extensions, lib).Good?
    ensures forall name :: Seen(ScanAll(extensions, lib).value.seen, name) == Occurrences(extensions, name)
  {
    ScanKeeps(extensions, lib);
    hide ScanAll, Occurrences, Seen;
  }

  lemma ScanSnoc(front: seq<TlsExt>, e: TlsExt, lib: Library)
    ensures ScanAll(front + [e], lib) ==
            if ScanAll(front, lib).Bad? then ScanAll(front, lib) else Absorb(ScanAll(front, lib).value, e, lib)
  {
    hide Absorb;
    assert (front + [e])[..|front|] == front;
  }

  lemma NothingScanned(lib: Library)
    ensures C.ProjectExts([]) == [] && ScanAll([], lib) == Good(START) && Scanned(START, OfferOf([]))
    ensures AllAcceptable([]) && OnceOnWire([])
  {
  }

  lemma {:induction false} ScanIff(es: seq<C.HelloExt>, lib: Library)
    requires AllWellFormed(es) && AgreesWithRegistry(lib)
    ensures ScanAll(C.ProjectExts(es), lib).Good? <==> AllAcceptable(es) && OnceOnWire(es)
    ensures ScanAll(C.ProjectExts(es), lib).Good? ==> Scanned(ScanAll(C.ProjectExts(es), lib).value, OfferOf(es))
    decreases |es|
  {
    hide ScanAll, Absorb, AllAcceptable, OnceOnWire, OfferOf, Scanned, AgreesWithRegistry, Acceptable, CountFits, Seen, Occurrences;
    hide C.ProjectExts, C.ProjectExt, C.WellFormedExt;
    if es == [] {
      NothingScanned(lib);
    } else {
      var front, last := es[..|es| - 1], es[|es| - 1];
      assert es == front + [last];
      WellFormedLast(es);
      ProjectLast(es);
      ScanIff(front, lib);
      AllSnoc(front, last);
      OnceSnoc(front, last);
      ScanSnoc(C.ProjectExts(front), C.ProjectExt(last), lib);
      if ScanAll(C.ProjectExts(front), lib).Good? {
        ScanSays(C.ProjectExts(front), lib);
        AbsorbIff(ScanAll(C.ProjectExts(front), lib).value, front, last, lib);
      }
    }
  }

  lemma WellFormedLast(es: seq<C.HelloExt>)
    requires AllWellFormed(es) && es != []
    ensures C.WellFormedExt(es[|es| - 1])
  {
    hide C.WellFormedExt;
  }

  // ---- the whole message --------------------------------------------------------------------------------

  predicate HasKind(es: seq<C.HelloExt>, kind: U16) {
    exists i :: 0 <= i < |es| && C.Kind(es[i]) == kind
  }

  /** The hellos that Go accepts after the import: 13 is signature_algorithms, 17513 and 17613 are the
      two application_settings, 0x0304 is TLS 1.3. */
  ghost predicate Accepted(h: C.Hello) {
    var o := OfferOf(h.extensions);
    && |h.cipherSuites| <= 128 && Distinct(NormaliseAll(h.cipherSuites))
    && |h.extensions| <= 64 && AllAcceptable(h.extensions) && OnceOnWire(h.extensions)
    && HasKind(h.extensions, 13)
    && (0x0304 in o.versions ==> o.shares != [] && exists c :: c in {0x1301, 0x1302, 0x1303} && c in h.cipherSuites)
    && o.shares != [0x0A0A]
    && Subset(o.shares, o.groups) && Subset(o.alps, o.alpn)
    && !(HasKind(h.extensions, 17513) && HasKind(h.extensions, 17613))
  }

  lemma WellFormedParts(h: C.Hello)
    requires C.WellFormed(h)
    ensures AllWellFormed(h.extensions) && h.extensions != [] && h.cipherSuites != []
    ensures C.OfferedVersions(h.extensions).Some? && C.RealVersions(C.OfferedVersions(h.extensions).value) != []
    ensures var s := C.Project(h); var numeric := C.RealVersions(C.OfferedVersions(h.extensions).value);
            && s.cipherSuites == NamesOf(h.cipherSuites, CIPHERS) && s.extensions == C.ProjectExts(h.extensions)
            && s.compressionMethods == ["NULL"] && !s.shuffleExtensions
            && s.minVers == Min(numeric) && s.maxVers == Max(numeric)
  {
    hide C.WellFormedExt, C.EncodeExtensions, C.RealVersions, C.ProjectExts, NamesOf;
  }

  /** The version range of the offered versions. */
  lemma OfferedRange(h: C.Hello, versions: seq<U16>)
    requires C.WellFormed(h) && versions == NormaliseAll(C.OfferedVersions(h.extensions).value)
    ensures var s := C.Project(h);
            && Range(versions) == Good((s.minVers, s.maxVers)) && s.minVers <= s.maxVers && versions != []
            && s.minVers != 0 && (s.maxVers == VERSION_TLS13 <==> VERSION_TLS13 in versions)
  {
    WellFormedParts(h);
    var ids := C.OfferedVersions(h.extensions).value;
    var i := FirstIndexOf(h);
    SameRange(ids);
    RangeSpans(versions);
    VersionsOnly(ids);
    hide Range, C.RealVersions, C.WellFormed, C.Project, NormaliseAll, AllWellFormed, C.ProjectExts, NamesOf, IsGrease;
  }

  lemma FirstIndexOf(h: C.Hello) returns (i: nat)
    requires C.WellFormed(h)
    ensures C.KnownVersions(C.OfferedVersions(h.extensions).value)
  {
    hide C.WellFormedExt, C.EncodeExtensions, C.RealVersions;
    i := FirstIndex(h.extensions);
  }

  lemma VersionsOnly(ids: seq<U16>)
    requires C.KnownVersions(ids)
    ensures forall v :: v in NormaliseAll(ids) ==> v in {GREASE_PLACEHOLDER, VERSION_TLS12, VERSION_TLS13}
  {
  }

  /** The checks behind the loop. */
  lemma CheckIff(s: TlsSpec, ciphers: seq<U16>, scan: Scan, o: Offer, lib: Library)
    requires Scanned(scan, o) && scan.versions != [] && Range(scan.versions) == Good((s.minVers, s.maxVers)) && s.minVers <= s.maxVers
    ensures Check(s, ciphers, scan, lib).Good? <==>
            && Seen(scan.seen, SignatureAlgorithms) > 0
            && (s.maxVers == VERSION_TLS13 ==> o.shares != [] && exists c :: c in TLS13_CIPHERS && c in ciphers)
            && o.shares != [GREASE_PLACEHOLDER]
            && Subset(o.shares, o.groups) && Subset(o.alps, o.alpn)
            && !(Seen(scan.seen, ApplicationSettings) > 0 && Seen(scan.seen, ApplicationSettingsNew) > 0)
  {
    hide Range, Seen;
    assert (|o.shares| == 1 && o.shares[0] == GREASE_PLACEHOLDER) <==> o.shares == [GREASE_PLACEHOLDER];
    assert Subset(o.shares, o.groups) <==> !(exists i :: 0 <= i < |o.shares| && o.shares[i] !in o.groups);
    assert Subset(o.alps, o.alpn) <==> !(exists i :: 0 <= i < |o.alps| && o.alps[i] !in o.alpn);
  }

  lemma RealCiphers(ids: seq<U16>)
    ensures (exists c :: c in TLS13_CIPHERS && c in NormaliseAll(ids)) <==> exists c :: c in {0x1301, 0x1302, 0x1303} && c in ids
  {
    assert TLS13_CIPHERS == {0x1301, 0x1302, 0x1303};
    forall c | c in TLS13_CIPHERS
      ensures c in NormaliseAll(ids) <==> c in ids
    {
      assert !IsGrease(c) && c != GREASE_PLACEHOLDER;
      if c in ids {
        var i :| 0 <= i < |ids| && ids[i] == c;
        assert NormaliseAll(ids)[i] == c;
      }
    }
  }

  predicate IsKindOf(name: ExtName, kind: U16) {
    ExtensionNumber(name) == kind && KindName(kind) == Some(name) && !IsGrease(kind)
  }

  lemma CheckedKinds()
    ensures IsKindOf(SignatureAlgorithms, 13)
    ensures IsKindOf(ApplicationSettings, 17513) && IsKindOf(ApplicationSettingsNew, 17613)
  {
  }

  /** A name of the checks was seen exactly if its kind is on the wire. */
  lemma SeenOnWire(es: seq<C.HelloExt>, scan: Scan, name: ExtName, kind: U16)
    requires AllWellFormed(es) && Seen(scan.seen, name) == Occurrences(C.ProjectExts(es), name)
    requires IsKindOf(name, kind)
    ensures Seen(scan.seen, name) > 0 <==> HasKind(es, kind)
  {
    hide C.ProjectExts, C.ProjectExt, C.Kind, Occurrences, Seen, C.WellFormedExt, IsKindOf;
    CountsAreIndices(es, name);
    forall i | 0 <= i < |es|
      ensures C.ProjectExt(es[i]).Name() == name <==> C.Kind(es[i]) == kind
    {
      NameOnWire(es[i], name, kind);
    }
  }

  lemma NameOnWire(e: C.HelloExt, name: ExtName, kind: U16)
    requires C.WellFormedExt(e) && IsKindOf(name, kind)
    ensures C.ProjectExt(e).Name() == name <==> C.Kind(e) == kind
  {
    KindOfName(e);
    assert IsGrease(GREASE_PLACEHOLDER);
    hide C.ProjectExt, C.Kind, C.WellFormedExt;
  }

  /** An imported hello is accepted by Go if and only if these conditions hold on the wire, whatever
      dictionaries Go uses, as long as they have the numbers of the TLS registries. */
  lemma AcceptedIff(h: C.Hello, lib: Library)
    requires C.WellFormed(h) && AgreesWithRegistry(lib)
    ensures ClientHelloSpec(C.Project(h), lib).Good? <==> Accepted(h)
  {
    hide C.WellFormed, C.Project, C.ProjectExts, ScanAll, Check, AgreesWithRegistry, AllWellFormed, HasKind, OfferOf, NormaliseAll, Seen, IsKindOf,
      Occurrences, AllAcceptable, OnceOnWire, NamesOf, Subset, Distinct, Range, C.RealVersions, C.OfferedVersions, ResolveNames, Ids;
    var s, es, o := C.Project(h), h.extensions, OfferOf(h.extensions);
    WellFormedParts(h);
    LengthOfNames(h);
    CipherIds(h.cipherSuites, lib);
    RealCiphers(h.cipherSuites);
    ScanIff(es, lib);
    if ScanAll(s.extensions, lib).Good? {
      var scan := ScanAll(s.extensions, lib).value;
      ScannedVersions(h, lib);
      OfferedRange(h, scan.versions);
      CheckIff(s, NormaliseAll(h.cipherSuites), scan, o, lib);
      ScanSays(s.extensions, lib);
      CheckedKinds();
      SeenOnWire(es, scan, SignatureAlgorithms, 13);
      SeenOnWire(es, scan, ApplicationSettings, 17513);
      SeenOnWire(es, scan, ApplicationSettingsNew, 17613);
    }
  }

  lemma LengthOfNames(h: C.Hello)
    requires C.WellFormed(h)
    ensures |C.Project(h).cipherSuites| == |h.cipherSuites| && |C.Project(h).extensions| == |h.extensions|
  {
    hide C.WellFormedExt, C.EncodeExtensions, C.RealVersions, NamesOf, C.ProjectExts;
  }

  lemma CipherIds(ids: seq<U16>, lib: Library)
    requires AgreesWithRegistry(lib)
    ensures Ids(NamesOf(ids, CIPHERS), lib.ciphers) == if Distinct(NormaliseAll(ids)) then Good(NormaliseAll(ids)) else Bad(BadIdentifier)
  {
    hide UsableTable, Agrees, AgreesWithRegistry, ResolveNames, NormaliseAll, NamesOf, Distinct;
    CiphersUsable();
    TablesAgree(lib);
    NamesInverse(ids, CIPHERS, lib.ciphers);
  }
}
