/** The numbers of the TLS registries, written out as pairs of a name and its number, and what it means that
    a name stands for a number. The importer's tables are measured against them. */
module TlsRegistry {
  import opened Bytes
  import opened TlsNames
  import opened HelloImport

  type Registry = set<(string, U16)>

  /** Section B.4 of RFC 8446, RFC 4492, RFC 5246, RFC 5288, RFC 5289 and RFC 7905. */
  const CIPHER_IDS: Registry := {
    ("TLS_AES_128_GCM_SHA256", 0x1301), ("TLS_AES_256_GCM_SHA384", 0x1302), ("TLS_CHACHA20_POLY1305_SHA256", 0x1303),
    ("TLS_RSA_WITH_AES_128_CBC_SHA", 0x002F), ("TLS_RSA_WITH_AES_256_CBC_SHA", 0x0035),
    ("TLS_RSA_WITH_AES_128_GCM_SHA256", 0x009C), ("TLS_RSA_WITH_AES_256_GCM_SHA384", 0x009D),
    ("TLS_ECDHE_RSA_WITH_AES_128_CBC_SHA", 0xC013), ("TLS_ECDHE_RSA_WITH_AES_256_CBC_SHA", 0xC014),
    ("TLS_ECDHE_ECDSA_WITH_AES_128_GCM_SHA256", 0xC02B), ("TLS_ECDHE_ECDSA_WITH_AES_256_GCM_SHA384", 0xC02C),
    ("TLS_ECDHE_RSA_WITH_AES_128_GCM_SHA256", 0xC02F), ("TLS_ECDHE_RSA_WITH_AES_256_GCM_SHA384", 0xC030),
    ("TLS_ECDHE_RSA_WITH_CHACHA20_POLY1305_SHA256", 0xCCA8), ("TLS_ECDHE_ECDSA_WITH_CHACHA20_POLY1305_SHA256", 0xCCA9)}

  const GROUP_IDS: Registry := {
    ("secp256r1", 23), ("secp384r1", 24), ("secp521r1", 25), ("x25519", 29), ("X25519MLKEM768", 4588)}

  const SIGNATURE_IDS: Registry := {
    ("rsa_pkcs1_sha256", 0x0401), ("rsa_pkcs1_sha384", 0x0501), ("rsa_pkcs1_sha512", 0x0601),
    ("ecdsa_secp256r1_sha256", 0x0403), ("ecdsa_secp384r1_sha384", 0x0503),
    ("rsa_pss_rsae_sha256", 0x0804), ("rsa_pss_rsae_sha384", 0x0805), ("rsa_pss_rsae_sha512", 0x0806)}

  const VERSION_IDS: Registry := {("TLS 1.2", 0x0303), ("TLS 1.3", 0x0304)}

  /** Section 7.3 of RFC 8879. */
  const COMPRESSION_IDS: Registry := {("zlib", 1), ("brotli", 2), ("zstd", 3)}

  /** A table and a registry that say the same, the registry with one number for each name. */
  ghost predicate SaysTheSame(names: Table, ids: Registry) {
    && (forall name, id :: (name, id) in ids <==> id in names && names[id] == name)
    && forall name, id, other :: (name, id) in ids && (name, other) in ids ==> id == other
  }

  lemma CiphersRegistered()
    ensures SaysTheSame(CIPHERS, CIPHER_IDS)
  {
    hide CIPHERS, CIPHER_IDS;
    CiphersInjective();
    forall id | id in CIPHERS
      ensures (CIPHERS[id], id) in CIPHER_IDS
    {
      CipherListed(id);
    }
    forall name, id | (name, id) in CIPHER_IDS
      ensures id in CIPHERS && CIPHERS[id] == name
    {
      CipherKnown(name, id);
    }
  }

  lemma CipherListed(id: U16)
    requires id in CIPHERS
    ensures (CIPHERS[id], id) in CIPHER_IDS
  {
  }

  lemma CipherKnown(name: string, id: U16)
    requires (name, id) in CIPHER_IDS
    ensures id in CIPHERS && CIPHERS[id] == name
  {
  }

  lemma GroupsRegistered()
    ensures SaysTheSame(GROUPS, GROUP_IDS)
  {
    GroupsInjective();
  }

  lemma SignaturesRegistered()
    ensures SaysTheSame(SIGNATURES, SIGNATURE_IDS)
  {
    SignaturesInjective();
  }

  lemma VersionsRegistered()
    ensures SaysTheSame(VERSIONS, VERSION_IDS)
  {
    VersionsInjective();
  }

  lemma CompressionRegistered()
    ensures SaysTheSame(CERT_COMPRESSION, COMPRESSION_IDS)
  {
    assert |"zlib"| == 4 && |"brotli"| == 6 && |"zstd"| == 4 && "zlib"[1] == 'l' && "zstd"[1] == 's';
  }

  // ---- a name for a number --------------------------------------------------------------------------

  /** Section 2 of RFC 8701. */
  predicate Reserved(id: U16) {
    id in {0x0A0A, 0x1A1A, 0x2A2A, 0x3A3A, 0x4A4A, 0x5A5A, 0x6A6A, 0x7A7A,
           0x8A8A, 0x9A9A, 0xAAAA, 0xBABA, 0xCACA, 0xDADA, 0xEAEA, 0xFAFA}
  }

  lemma ReservedIff(id: U16)
    ensures IsGrease(id) <==> Reserved(id)
    ensures Normalise(id) == if Reserved(id) then 0x0A0A else id
  {
    GreaseValues(id);
    if Reserved(id) {
      ReservedValue(id);
    }
    hide IsGrease;
  }

  lemma ReservedValue(id: U16)
    requires Reserved(id)
    ensures id == 0x0A0A + (id / 0x1000) * 0x1010
  {
  }

  /** The registered name, "GREASE" for the reserved values, and otherwise four hexadecimal digits. */
  ghost predicate Spells(name: string, id: U16, ids: Registry) {
    if Reserved(id) then name == "GREASE"
    else if exists known :: (known, id) in ids then (name, id) in ids
    else
      var digits := "0123456789abcdef";
      name == ['0', 'x', digits[id / 0x1000], digits[id / 0x100 % 0x10], digits[id / 0x10 % 0x10], digits[id % 0x10]]
  }

  lemma DigitOf(n: nat)
    requires n < 16
    ensures HexDigit(n) == "0123456789abcdef"[n]
  {
  }

  lemma TlsNameSpells(id: U16, names: Table, ids: Registry)
    requires SaysTheSame(names, ids)
    ensures Spells(TlsName(id, names), id, ids)
  {
    ReservedIff(id);
    if id in names {
      assert (names[id], id) in ids;
    } else {
      DigitOf(id / 0x1000);
      DigitOf(id / 0x100 % 0x10);
      DigitOf(id / 0x10 % 0x10);
      DigitOf(id % 0x10);
    }
    hide IsGrease, Reserved;
  }

  ghost predicate SpellsAll(names: seq<string>, ids: seq<U16>, registry: Registry) {
    |names| == |ids| && forall i :: 0 <= i < |ids| ==> Spells(names[i], ids[i], registry)
  }

  lemma NamesSpell(ids: seq<U16>, names: Table, registry: Registry)
    requires SaysTheSame(names, registry)
    ensures SpellsAll(NamesOf(ids, names), ids, registry)
  {
    hide SaysTheSame, Spells, TlsName;
    forall i | 0 <= i < |ids|
      ensures Spells(NamesOf(ids, names)[i], ids[i], registry)
    {
      TlsNameSpells(ids[i], names, registry);
    }
  }

  // ---- the dictionaries of the Go side ----------------------------------------------------------------

  /** A uTLS dictionary with every registered name that is looked up in it. */
  ghost predicate Gives(dictionary: Dictionary, ids: Registry) {
    forall name, id :: (name, id) in ids && name != "X25519MLKEM768" ==> name in dictionary && dictionary[name] == id
  }

  lemma GivesAgrees(dictionary: Dictionary, names: Table, ids: Registry)
    requires SaysTheSame(names, ids) && Gives(dictionary, ids)
    ensures Agrees(dictionary, names)
  {
    assert forall id :: id in names ==> (names[id], id) in ids;
  }
}
