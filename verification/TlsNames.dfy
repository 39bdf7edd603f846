/** TLS code points and their names: the importer's tables (python/gohttpx.py) and the Go resolver
    that turns the names back into code points (tls_spec.go). */
module TlsNames {
  import opened Bytes
  import opened Sequences

  const GREASE_PLACEHOLDER: U16 := 0x0A0A
  const X25519_MLKEM768: U16 := 0x11EC

  type Table = map<U16, string>

  const CIPHERS: Table := map[
    0x1301 := "TLS_AES_128_GCM_SHA256", 0x1302 := "TLS_AES_256_GCM_SHA384", 0x1303 := "TLS_CHACHA20_POLY1305_SHA256",
    0xC02B := "TLS_ECDHE_ECDSA_WITH_AES_128_GCM_SHA256", 0xC02F := "TLS_ECDHE_RSA_WITH_AES_128_GCM_SHA256",
    0xC02C := "TLS_ECDHE_ECDSA_WITH_AES_256_GCM_SHA384", 0xC030 := "TLS_ECDHE_RSA_WITH_AES_256_GCM_SHA384",
    0xCCA9 := "TLS_ECDHE_ECDSA_WITH_CHACHA20_POLY1305_SHA256", 0xCCA8 := "TLS_ECDHE_RSA_WITH_CHACHA20_POLY1305_SHA256",
    0xC013 := "TLS_ECDHE_RSA_WITH_AES_128_CBC_SHA", 0xC014 := "TLS_ECDHE_RSA_WITH_AES_256_CBC_SHA",
    0x009C := "TLS_RSA_WITH_AES_128_GCM_SHA256", 0x009D := "TLS_RSA_WITH_AES_256_GCM_SHA384",
    0x002F := "TLS_RSA_WITH_AES_128_CBC_SHA", 0x0035 := "TLS_RSA_WITH_AES_256_CBC_SHA"]

  const GROUPS: Table := map[
    0x001D := "x25519", 0x0017 := "secp256r1", 0x0018 := "secp384r1", 0x0019 := "secp521r1", 0x11EC := "X25519MLKEM768"]

  const SIGNATURES: Table := map[
    0x0403 := "ecdsa_secp256r1_sha256", 0x0503 := "ecdsa_secp384r1_sha384",
    0x0804 := "rsa_pss_rsae_sha256", 0x0805 := "rsa_pss_rsae_sha384", 0x0806 := "rsa_pss_rsae_sha512",
    0x0401 := "rsa_pkcs1_sha256", 0x0501 := "rsa_pkcs1_sha384", 0x0601 := "rsa_pkcs1_sha512"]

  const VERSIONS: Table := map[0x0303 := "TLS 1.2", 0x0304 := "TLS 1.3"]

  /** `_is_grease_id`, with the masks and shifts written as arithmetic: both nibble tests of
      `value & 0x0F0F == 0x0A0A` and the equality of the two bytes. */
  predicate IsGrease(value: U16) {
    value / 0x100 % 0x10 == 0xA && value % 0x10 == 0xA && value / 0x100 == value % 0x100
  }

  lemma GreaseValue(k: nat)
    requires k < 16
    ensures IsGrease(0x0A0A + k * 0x1010)
  {
    var byte := k * 0x10 + 0xA;
    assert 0x0A0A + k * 0x1010 == byte * 0x100 + byte;
    assert byte % 0x10 == 0xA;
  }

  /** Section 2 of RFC 8701 reserves sixteen values: 0x0A0A, 0x1A1A, ..., 0xFAFA. */
  lemma GreaseValues(value: U16)
    ensures IsGrease(value) <==> exists k :: 0 <= k < 16 && value == 0x0A0A + k * 0x1010
  {
    if IsGrease(value) {
      var k := value / 0x100 / 0x10;
      assert value == (k * 0x10 + 0xA) * 0x100 + (k * 0x10 + 0xA);
      assert 0 <= k < 16 && value == 0x0A0A + k * 0x1010;
    } else if k :| 0 <= k < 16 && value == 0x0A0A + k * 0x1010 {
      GreaseValue(k);
    }
  }

  function HexDigit(n: nat): char
    requires n < 16
  {
    if n < 10 then '0' + n as char else 'a' + (n - 10) as char
  }

  /** Python's `f"0x{value:04x}"` for a two-byte value. */
  function Hex(value: U16): string {
    ['0', 'x', HexDigit(value / 0x1000), HexDigit(value / 0x100 % 0x10), HexDigit(value / 0x10 % 0x10), HexDigit(value % 0x10)]
  }

  /** `_tls_name`. */
  function TlsName(value: U16, names: Table): string {
    if IsGrease(value) then "GREASE" else if value in names then names[value] else Hex(value)
  }

  function NamesOf(ids: seq<U16>, names: Table): (r: seq<string>)
    ensures |r| == |ids| && forall i :: 0 <= i < |ids| ==> r[i] == TlsName(ids[i], names)
  {
    seq(|ids|, i requires 0 <= i < |ids| => TlsName(ids[i], names))
  }

  // ---- the Go side -------------------------------------------------------------------------

  predicate IsHexDigit(c: char) {
    '0' <= c <= '9' || 'a' <= c <= 'f' || 'A' <= c <= 'F'
  }

  function HexValue(c: char): (n: nat)
    requires IsHexDigit(c)
    ensures n < 16
  {
    if '0' <= c <= '9' then (c - '0') as int
    else if 'a' <= c <= 'f' then (c - 'a') as int + 10
    else (c - 'A') as int + 10
  }

  function HexNumber(s: string): nat
    requires forall c :: c in s ==> IsHexDigit(c)
  {
    if |s| == 0 then 0 else HexNumber(s[..|s| - 1]) * 0x10 + HexValue(s[|s| - 1])
  }

  /** Go's `strconv.ParseUint(s, 16, 16)`: digits only, at least one, and the value fits 16 bits. */
  function ParseHex(s: string): Outcome<U16> {
    if s == "" || exists c :: c in s && !IsHexDigit(c) then ValueError
    else if HexNumber(s) < 0x1_0000 then Ok(HexNumber(s)) else ValueError
  }

  type Dictionary = map<string, U16>

  function Normalise(id: U16): U16 {
    if IsGrease(id) then GREASE_PLACEHOLDER else id
  }

  function NormaliseAll(ids: seq<U16>): (r: seq<U16>)
    ensures |r| == |ids| && forall i :: 0 <= i < |ids| ==> r[i] == Normalise(ids[i])
  {
    seq(|ids|, i requires 0 <= i < |ids| => Normalise(ids[i]))
  }

  /** One round of the loop in `tlsIDs` before the duplicate test. A missing dictionary entry reads
      as zero, so `dictionary["x25519"] != 0` is false for a dictionary without that name. */
  function ResolveName(name: string, dictionary: Dictionary): Outcome<U16> {
    var found :=
      if name == "GREASE" then Ok(GREASE_PLACEHOLDER)
      else if name == "X25519MLKEM768" && "x25519" in dictionary && dictionary["x25519"] != 0 then Ok(X25519_MLKEM768)
      else if "0x" <= name then ParseHex(name[2..])
      else if name in dictionary then Ok(dictionary[name])
      else ValueError;
    if found.Ok? then Ok(Normalise(found.value)) else ValueError
  }

  /** What `tlsIDs` promises: the ids in the order of the names, provided that every name resolves
      and no two names resolve to the same id. */
  ghost predicate ResolvesTo(names: seq<string>, dictionary: Dictionary, ids: seq<U16>) {
    && |ids| == |names|
    && Distinct(ids)
    && forall i :: 0 <= i < |names| ==> ResolveName(names[i], dictionary) == Ok(ids[i])
  }

  /** The same as a function, for the other specifications to use. */
  function ResolveNames(names: seq<string>, dictionary: Dictionary): (r: Outcome<seq<U16>>)
    ensures r.Ok? <==> exists ids :: ResolvesTo(names, dictionary, ids)
    ensures r.Ok? ==> ResolvesTo(names, dictionary, r.value)
  {
    if |names| == 0 then
      assert ResolvesTo(names, dictionary, []);
      Ok([])
    else
      var n := |names| - 1;
      var front := ResolveNames(names[..n], dictionary);
      var last := ResolveName(names[n], dictionary);
      assert (exists ids :: ResolvesTo(names, dictionary, ids)) ==> front.Ok? by {
        if ids :| ResolvesTo(names, dictionary, ids) {
          assert ResolvesTo(names[..n], dictionary, ids[..n]);
        }
      }
      if front.ValueError? || last.ValueError? then ValueError
      else
        assert forall ids :: ResolvesTo(names, dictionary, ids) ==> ids == front.value + [last.value];
        if last.value in front.value then
          ValueError
        else
          assert ResolvesTo(names, dictionary, front.value + [last.value]);
          Ok(front.value + [last.value])
  }

  /** `tlsIDs`: the loop with its `seen` set. */
  method TlsIds(names: seq<string>, dictionary: Dictionary) returns (r: Outcome<seq<U16>>)
    ensures r == ResolveNames(names, dictionary)
    ensures r.Ok? ==> ResolvesTo(names, dictionary, r.value)
    ensures r.ValueError? ==> forall ids :: !ResolvesTo(names, dictionary, ids)
  {
    var ids: seq<U16> := [];
    var seen: set<U16> := {};
    for i := 0 to |names|
      invariant ResolveNames(names[..i], dictionary) == Ok(ids)
      invariant forall id :: id in seen <==> id in ids
    {
      ResolveNamesStep(names, dictionary, i);
      var id := ResolveName(names[i], dictionary);
      if id.ValueError? || id.value in seen {
        PrefixFails(names, dictionary, i + 1);
        return ValueError;
      }
      seen := seen + {id.value};
      ids := ids + [id.value];
    }
    assert names[..|names|] == names;
    r := Ok(ids);
  }

  lemma ResolveNamesStep(names: seq<string>, dictionary: Dictionary, i: nat)
    requires i < |names| && ResolveNames(names[..i], dictionary).Ok?
    ensures var ids, id := ResolveNames(names[..i], dictionary).value, ResolveName(names[i], dictionary);
            ResolveNames(names[..i + 1], dictionary) ==
            if id.ValueError? || id.value in ids then ValueError else Ok(ids + [id.value])
  {
    assert names[..i + 1][..i] == names[..i];
  }

  lemma PrefixFails(names: seq<string>, dictionary: Dictionary, n: nat)
    requires n <= |names| && ResolveNames(names[..n], dictionary).ValueError?
    ensures ResolveNames(names, dictionary).ValueError?
  {
    if ids :| ResolvesTo(names, dictionary, ids) {
      assert ResolvesTo(names[..n], dictionary, ids[..n]);
    }
  }

  // ---- names and numbers are inverse -----------------------------------------------------------

  /** The facts about a table that make its names unambiguous. */
  predicate UsableTable(names: Table) {
    forall id :: id in names ==>
      && !IsGrease(id)
      && names[id] != "GREASE"
      && !("0x" <= names[id])
      && (names[id] == "X25519MLKEM768" ==> id == X25519_MLKEM768 && 0x001D in names && names[0x001D] == "x25519")
  }

  /** A uTLS dictionary that gives every name of the table its table id. `X25519MLKEM768` is not
      looked up there. */
  predicate Agrees(dictionary: Dictionary, names: Table) {
    forall id :: id in names && names[id] != "X25519MLKEM768" ==> names[id] in dictionary && dictionary[names[id]] == id
  }

  lemma CiphersUsable()
    ensures UsableTable(CIPHERS)
  {
    forall id | id in CIPHERS
      ensures !IsGrease(id) && CIPHERS[id][0] == 'T'
    {
      assert CIPHERS[0x1301][0] == CIPHERS[0x1302][0] == CIPHERS[0x1303][0] == 'T';
      assert CIPHERS[0xC02B][0] == CIPHERS[0xC02F][0] == CIPHERS[0xC02C][0] == CIPHERS[0xC030][0] == 'T';
      assert CIPHERS[0xCCA9][0] == CIPHERS[0xCCA8][0] == CIPHERS[0xC013][0] == CIPHERS[0xC014][0] == 'T';
      assert CIPHERS[0x009C][0] == CIPHERS[0x009D][0] == CIPHERS[0x002F][0] == CIPHERS[0x0035][0] == 'T';
    }
  }

  lemma SignaturesUsable()
    ensures UsableTable(SIGNATURES)
  {
    forall id | id in SIGNATURES
      ensures !IsGrease(id) && SIGNATURES[id][0] in {'e', 'r'}
    {
    }
  }

  lemma GroupsUsable()
    ensures UsableTable(GROUPS)
  {
    forall id | id in GROUPS
      ensures !IsGrease(id) && GROUPS[id][0] in {'x', 's', 'X'}
      ensures GROUPS[id][0] == 'X' ==> id == X25519_MLKEM768
    {
    }
  }

  lemma VersionsUsable()
    ensures UsableTable(VERSIONS)
  {
    forall id | id in VERSIONS
      ensures !IsGrease(id) && VERSIONS[id][0] == 'T'
    {
    }
  }

  lemma HexDigitValue(n: nat)
    requires n < 16
    ensures IsHexDigit(HexDigit(n)) && HexValue(HexDigit(n)) == n
  {
  }

  lemma Nibbles(value: U16, a: nat, b: nat, c: nat, d: nat)
    requires a == value / 0x1000 && b == value / 0x100 % 0x10 && c == value / 0x10 % 0x10 && d == value % 0x10
    ensures a < 16 && b < 16 && c < 16 && d < 16
    ensures ((a * 0x10 + b) * 0x10 + c) * 0x10 + d == value
  {
    assert value / 0x100 / 0x10 == a && value / 0x10 / 0x10 == value / 0x100;
  }

  lemma HexNumberStep(s: string, c: char)
    requires IsHexDigit(c) && forall x :: x in s ==> IsHexDigit(x)
    ensures HexNumber(s + [c]) == HexNumber(s) * 0x10 + HexValue(c)
  {
    assert (s + [c])[..|s|] == s;
  }

  lemma FourDigits(a: char, b: char, c: char, d: char)
    requires IsHexDigit(a) && IsHexDigit(b) && IsHexDigit(c) && IsHexDigit(d)
    ensures HexNumber([a, b, c, d]) == ((HexValue(a) * 0x10 + HexValue(b)) * 0x10 + HexValue(c)) * 0x10 + HexValue(d)
  {
    HexNumberStep([], a);
    HexNumberStep([a], b);
    HexNumberStep([a, b], c);
    HexNumberStep([a, b, c], d);
    assert [] + [a] == [a] && [a] + [b] == [a, b] && [a, b] + [c] == [a, b, c] && [a, b, c] + [d] == [a, b, c, d];
  }

  lemma ParseHexOfHex(value: U16)
    ensures "0x" <= Hex(value) && Hex(value)[0] == '0'
    ensures ParseHex(Hex(value)[2..]) == Ok(value)
  {
    var a, b, c, d := value / 0x1000, value / 0x100 % 0x10, value / 0x10 % 0x10, value % 0x10;
    Nibbles(value, a, b, c, d);
    HexDigitValue(a); HexDigitValue(b); HexDigitValue(c); HexDigitValue(d);
    FourDigits(HexDigit(a), HexDigit(b), HexDigit(c), HexDigit(d));
    assert Hex(value)[2..] == [HexDigit(a), HexDigit(b), HexDigit(c), HexDigit(d)];
  }

  /** `tlsIDs` undoes `_tls_name`, up to the choice of the GREASE value. */
  lemma NameInverse(id: U16, names: Table, dictionary: Dictionary)
    requires UsableTable(names) && Agrees(dictionary, names)
    ensures ResolveName(TlsName(id, names), dictionary) == Ok(Normalise(id))
  {
    if !IsGrease(id) && id !in names {
      ParseHexOfHex(id);
    } else if !IsGrease(id) && names[id] == "X25519MLKEM768" {
      assert names[0x001D] == "x25519" != "X25519MLKEM768";
    }
  }

  /** Resolving the importer's names gives the wire ids in order, every GREASE id read as 0x0A0A;
      it succeeds exactly when those normalised ids are pairwise distinct. */
  lemma NamesInverse(ids: seq<U16>, names: Table, dictionary: Dictionary)
    requires UsableTable(names) && Agrees(dictionary, names)
    ensures ResolveNames(NamesOf(ids, names), dictionary) ==
            if Distinct(NormaliseAll(ids)) then Ok(NormaliseAll(ids)) else ValueError
  {
    var texts, r := NamesOf(ids, names), ResolveNames(NamesOf(ids, names), dictionary);
    forall i | 0 <= i < |ids|
      ensures ResolveName(texts[i], dictionary) == Ok(NormaliseAll(ids)[i])
    {
      NameInverse(ids[i], names, dictionary);
    }
    assert r.Ok? ==> r.value == NormaliseAll(ids);
    if Distinct(NormaliseAll(ids)) {
      assert ResolvesTo(texts, dictionary, NormaliseAll(ids));
    }
  }

  // ---- names are unambiguous ---------------------------------------------------------------------

  predicate Injective(names: Table) {
    forall a, b :: a in names && b in names && names[a] == names[b] ==> a == b
  }

  /** A table in which every name has a key that gives back its id. */
  lemma KeyedInjective(names: Table, key: string -> int)
    requires forall id :: id in names ==> key(names[id]) == id
    ensures Injective(names)
  {
  }

  /** Length and one character tell the cipher names apart. */
  function CipherKey(name: string): int {
    if |name| == 22 then if name[8] == '1' then 0x1301 else 0x1302
    else if |name| == 28 then if name[4] == 'C' then 0x1303 else if name[17] == '1' then 0x002F else 0x0035
    else if |name| == 39 then if name[25] == '1' then 0xC02B else 0xC02C
    else if |name| == 37 then if name[23] == '1' then 0xC02F else 0xC030
    else if |name| == 45 then 0xCCA9
    else if |name| == 43 then 0xCCA8
    else if |name| == 34 then if name[23] == '1' then 0xC013 else 0xC014
    else if |name| == 31 then if name[17] == '1' then 0x009C else 0x009D
    else -1
  }

  lemma CiphersInjective()
    ensures Injective(CIPHERS)
  {
    assert forall id :: id in CIPHERS ==> CipherKey(CIPHERS[id]) == id;
    KeyedInjective(CIPHERS, CipherKey);
  }

  function SignatureKey(name: string): int {
    if |name| == 22 then if name[10] == '2' then 0x0403 else 0x0503
    else if |name| == 19 then if name[16] == '2' then 0x0804 else if name[16] == '3' then 0x0805 else 0x0806
    else if |name| == 16 then if name[13] == '2' then 0x0401 else if name[13] == '3' then 0x0501 else 0x0601
    else -1
  }

  lemma SignaturesInjective()
    ensures Injective(SIGNATURES)
  {
    assert forall id :: id in SIGNATURES ==> SignatureKey(SIGNATURES[id]) == id;
    KeyedInjective(SIGNATURES, SignatureKey);
  }

  function GroupKey(name: string): int {
    if |name| == 6 then 0x001D
    else if |name| == 14 then 0x11EC
    else if |name| == 9 then if name[4] == '2' then 0x0017 else if name[4] == '3' then 0x0018 else 0x0019
    else -1
  }

  lemma GroupsInjective()
    ensures Injective(GROUPS)
  {
    assert forall id :: id in GROUPS ==> GroupKey(GROUPS[id]) == id;
    KeyedInjective(GROUPS, GroupKey);
  }

  lemma VersionsInjective()
    ensures Injective(VERSIONS)
  {
    assert VERSIONS[0x0303][6] == '2' && VERSIONS[0x0304][6] == '3';
  }

  /** Two ids with the same name are the same, or both GREASE. */
  lemma NameUnambiguous(a: U16, b: U16, names: Table)
    requires UsableTable(names) && Injective(names) && TlsName(a, names) == TlsName(b, names)
    ensures Normalise(a) == Normalise(b)
  {
    ParseHexOfHex(a);
    ParseHexOfHex(b);
    assert "GREASE"[0] == 'G';
    hide Hex, ParseHex;
  }

  lemma NamesUnambiguous(a: seq<U16>, b: seq<U16>, names: Table)
    requires UsableTable(names) && Injective(names) && NamesOf(a, names) == NamesOf(b, names)
    ensures NormaliseAll(a) == NormaliseAll(b)
  {
    hide TlsName, Normalise, UsableTable, Injective;
    assert |a| == |NamesOf(a, names)| == |b|;
    forall i | 0 <= i < |a|
      ensures Normalise(a[i]) == Normalise(b[i])
    {
      assert TlsName(a[i], names) == NamesOf(a, names)[i] == NamesOf(b, names)[i] == TlsName(b[i], names);
      NameUnambiguous(a[i], b[i], names);
    }
  }
}
