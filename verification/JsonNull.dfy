/** `rejectJSONNull`, a one-pass scanner over the raw bytes of a JSON text, against the tree that the
    text stands for. The grammar is the one of sections 2 to 7 of RFC 8259. */
module JsonNull {
  import opened Bytes
  import opened Options

  const QUOTE: Byte := 0x22
  const BACKSLASH: Byte := 0x5C
  const NULL_TEXT: ByteString := [0x6E, 0x75, 0x6C, 0x6C]

  // ---- the tree and its texts ---------------------------------------------------------------------

  type Blank = ByteString

  /** One character of a string: as it is (or one byte of its UTF-8 form), or escaped. */
  datatype Character = Plain(code: Byte) | Escape(code: Byte) | Unicode(hex: ByteString)

  datatype Exponent = Exponent(letter: Byte, sign: ByteString, digits: ByteString)

  datatype Json =
    | Null
    | True
    | False
    | Number(minus: bool, whole: ByteString, fraction: Option<ByteString>, exponent: Option<Exponent>)
    | Text(characters: seq<Character>)
    | EmptyArray(blank: Blank)
    | Array(elements: Elements)
    | EmptyObject(blank: Blank)
    | Object(members: Members)

  datatype Elements =
    | LastElement(before: Blank, value: Json, after: Blank)
    | MoreElements(before: Blank, value: Json, after: Blank, rest: Elements)

  datatype Name = Name(before: Blank, characters: seq<Character>, after: Blank)

  datatype Members =
    | LastMember(name: Name, before: Blank, value: Json, after: Blank)
    | MoreMembers(name: Name, before: Blank, value: Json, after: Blank, rest: Members)

  predicate IsBlank(blank: Blank) {
    forall k :: 0 <= k < |blank| ==> blank[k] == 0x20 || blank[k] == 0x09 || blank[k] == 0x0A || blank[k] == 0x0D
  }

  predicate IsDigits(digits: ByteString) {
    |digits| > 0 && forall k :: 0 <= k < |digits| ==> 0x30 <= digits[k] <= 0x39
  }

  predicate IsHex(code: Byte) {
    0x30 <= code <= 0x39 || 0x41 <= code <= 0x46 || 0x61 <= code <= 0x66
  }

  /** The letters that may follow a backslash, without `u`. */
  predicate IsEscape(code: Byte) {
    code in [0x22, 0x5C, 0x2F, 0x62, 0x66, 0x6E, 0x72, 0x74]
  }

  predicate IsCharacter(c: Character) {
    match c
    case Plain(code) => code >= 0x20 && code != 0x22 && code != 0x5C
    case Escape(code) => IsEscape(code)
    case Unicode(hex) => |hex| == 4 && forall k :: 0 <= k < 4 ==> IsHex(hex[k])
  }

  predicate IsString(characters: seq<Character>) {
    forall k :: 0 <= k < |characters| ==> IsCharacter(characters[k])
  }

  predicate IsExponent(e: Exponent) {
    (e.letter == 0x65 || e.letter == 0x45) && (e.sign == [] || e.sign == [0x2B] || e.sign == [0x2D]) && IsDigits(e.digits)
  }

  predicate WellFormed(v: Json) {
    match v
    case Null => true
    case True => true
    case False => true
    case Number(_, whole, fraction, exponent) =>
      && IsDigits(whole) && (whole[0] == 0x30 ==> |whole| == 1)
      && (fraction.Some? ==> IsDigits(fraction.value)) && (exponent.Some? ==> IsExponent(exponent.value))
    case Text(characters) => IsString(characters)
    case EmptyArray(blank) => IsBlank(blank)
    case Array(elements) => ElementsWellFormed(elements)
    case EmptyObject(blank) => IsBlank(blank)
    case Object(members) => MembersWellFormed(members)
  }

  predicate ElementsWellFormed(es: Elements) {
    IsBlank(es.before) && WellFormed(es.value) && IsBlank(es.after) && (es.MoreElements? ==> ElementsWellFormed(es.rest))
  }

  predicate MembersWellFormed(ms: Members) {
    && IsBlank(ms.name.before) && IsString(ms.name.characters) && IsBlank(ms.name.after)
    && IsBlank(ms.before) && WellFormed(ms.value) && IsBlank(ms.after) && (ms.MoreMembers? ==> MembersWellFormed(ms.rest))
  }

  function CharacterBytes(c: Character): ByteString {
    match c
    case Plain(code) => [code]
    case Escape(code) => [0x5C, code]
    case Unicode(hex) => [0x5C, 0x75] + hex
  }

  function CharactersBytes(characters: seq<Character>): ByteString {
    if characters == [] then [] else CharacterBytes(characters[0]) + CharactersBytes(characters[1..])
  }

  function StringBytes(characters: seq<Character>): ByteString {
    [0x22] + (CharactersBytes(characters) + [0x22])
  }

  function NumberBytes(v: Json): ByteString
    requires v.Number?
  {
    (if v.minus then [0x2D] else []) + v.whole
      + (if v.fraction.Some? then [0x2E] + v.fraction.value else [])
      + (if v.exponent.Some? then [v.exponent.value.letter] + v.exponent.value.sign + v.exponent.value.digits else [])
  }

  /** The bytes of a value. */
  function ValueBytes(v: Json): ByteString {
    match v
    case Null => Letters("null")
    case True => Letters("true")
    case False => Letters("false")
    case Number(_, _, _, _) => NumberBytes(v)
    case Text(characters) => StringBytes(characters)
    case EmptyArray(blank) => [0x5B] + (blank + [0x5D])
    case Array(elements) => [0x5B] + (ElementsBytes(elements) + [0x5D])
    case EmptyObject(blank) => [0x7B] + (blank + [0x7D])
    case Object(members) => [0x7B] + (MembersBytes(members) + [0x7D])
  }

  function ElementsBytes(es: Elements): ByteString {
    es.before + ValueBytes(es.value) + es.after + if es.MoreElements? then [0x2C] + ElementsBytes(es.rest) else []
  }

  function NameBytes(name: Name): ByteString {
    name.before + StringBytes(name.characters) + name.after + [0x3A]
  }

  function MembersBytes(ms: Members): ByteString {
    NameBytes(ms.name)
      + (ms.before + ValueBytes(ms.value) + ms.after + if ms.MoreMembers? then [0x2C] + MembersBytes(ms.rest) else [])
  }

  /** Null occurs somewhere in the value. */
  predicate HasNull(v: Json) {
    match v
    case Null => true
    case Array(elements) => ElementsHaveNull(elements)
    case Object(members) => MembersHaveNull(members)
    case _ => false
  }

  predicate ElementsHaveNull(es: Elements) {
    HasNull(es.value) || (es.MoreElements? && ElementsHaveNull(es.rest))
  }

  predicate MembersHaveNull(ms: Members) {
    HasNull(ms.value) || (ms.MoreMembers? && MembersHaveNull(ms.rest))
  }

  // ---- the scanner ------------------------------------------------------------------------------------

  /** True if the scanner reports a null in what is left. */
  function Scan(data: ByteString, inString: bool, escaped: bool): bool {
    if data == [] then false
    else if inString then
      if escaped then Scan(data[1..], true, false)
      else if data[0] == BACKSLASH then Scan(data[1..], true, true)
      else Scan(data[1..], data[0] != QUOTE, false)
    else if data[0] == QUOTE then Scan(data[1..], true, false)
    else if data[0] == 0x6E && |data| >= 4 && data[..4] == NULL_TEXT then true
    else Scan(data[1..], false, false)
  }

  /** `rejectJSONNull`. */
  method RejectJSONNull(data: ByteString) returns (rejected: bool)
    ensures rejected == Scan(data, false, false)
  {
    var inString, escaped := false, false;
    for i := 0 to |data|
      invariant escaped ==> inString
      invariant Scan(data, false, false) == Scan(data[i..], inString, escaped)
    {
      var current := data[i];
      assert data[i..][0] == current && data[i..][1..] == data[i + 1..];
      if inString {
        if escaped {
          escaped := false;
        } else if current == BACKSLASH {
          escaped := true;
        } else if current == QUOTE {
          inString := false;
        }
        continue;
      }
      if current == QUOTE {
        inString := true;
        continue;
      }
      if current == 0x6E && |data| - i >= 4 && data[i..i + 4] == NULL_TEXT {
        assert data[i..][..4] == data[i..i + 4];
        return true;
      }
      assert |data| - i >= 4 ==> data[i..][..4] == data[i..i + 4];
    }
    return false;
  }

  // ---- scanner and tree ---------------------------------------------------------------------------------

  /** Outside strings, bytes that start neither a string nor a null are passed over. */
  predicate Quiet(bytes: ByteString) {
    forall k :: 0 <= k < |bytes| ==> bytes[k] != QUOTE && bytes[k] != 0x6E
  }

  lemma {:induction false} ScanQuiet(bytes: ByteString, tail: ByteString)
    requires Quiet(bytes)
    ensures Scan(bytes + tail, false, false) == Scan(tail, false, false)
  {
    if bytes == [] {
      assert bytes + tail == tail;
    } else {
      assert (bytes + tail)[1..] == bytes[1..] + tail;
      ScanQuiet(bytes[1..], tail);
    }
  }

  /** Four hex digits, inside a string. */
  lemma {:induction false} ScanHex(hex: ByteString, tail: ByteString)
    requires forall k :: 0 <= k < |hex| ==> IsHex(hex[k])
    ensures Scan(hex + tail, true, false) == Scan(tail, true, false)
  {
    if hex == [] {
      assert hex + tail == tail;
    } else {
      assert (hex + tail)[1..] == hex[1..] + tail;
      ScanHex(hex[1..], tail);
    }
  }

  lemma ScanCharacter(c: Character, tail: ByteString)
    requires IsCharacter(c)
    ensures Scan(CharacterBytes(c) + tail, true, false) == Scan(tail, true, false)
  {
    var all := CharacterBytes(c) + tail;
    match c
    case Plain(code) => assert all[1..] == tail;
    case Escape(code) => assert all[1..][1..] == tail;
    case Unicode(hex) =>
      assert all[1..][1..] == hex + tail;
      ScanHex(hex, tail);
  }

  lemma {:induction false} ScanCharacters(characters: seq<Character>, tail: ByteString)
    requires IsString(characters)
    ensures Scan(CharactersBytes(characters) + tail, true, false) == Scan(tail, true, false)
  {
    if characters == [] {
      assert CharactersBytes(characters) + tail == tail;
    } else {
      var rest := CharactersBytes(characters[1..]);
      assert CharactersBytes(characters) + tail == CharacterBytes(characters[0]) + (rest + tail);
      ScanCharacter(characters[0], rest + tail);
      ScanCharacters(characters[1..], tail);
    }
  }

  lemma ScanString(characters: seq<Character>, tail: ByteString)
    requires IsString(characters)
    ensures Scan(StringBytes(characters) + tail, false, false) == Scan(tail, false, false)
  {
    var all := StringBytes(characters) + tail;
    assert all[1..] == CharactersBytes(characters) + ([QUOTE] + tail);
    ScanCharacters(characters, [QUOTE] + tail);
    assert ([QUOTE] + tail)[1..] == tail;
  }

  lemma ScanOne(c: Byte, tail: ByteString)
    requires c != QUOTE && c != 0x6E
    ensures Scan([c] + tail, false, false) == Scan(tail, false, false)
  {
    ScanQuiet([c], tail);
  }

  lemma NumberQuiet(v: Json)
    requires v.Number? && WellFormed(v)
    ensures Quiet(NumberBytes(v))
  {
  }

  lemma ScanBrackets(open: Byte, inner: ByteString, close: Byte, tail: ByteString, bad: bool)
    requires open != QUOTE && open != 0x6E && close != QUOTE && close != 0x6E
    requires Scan(inner + ([close] + tail), false, false) == (bad || Scan([close] + tail, false, false))
    ensures Scan([open] + (inner + [close]) + tail, false, false) == (bad || Scan(tail, false, false))
  {
    assert [open] + (inner + [close]) + tail == [open] + (inner + ([close] + tail));
    ScanOne(open, inner + ([close] + tail));
    ScanOne(close, tail);
  }

  /** One value at the front of the data, and what it leaves to scan. */
  lemma {:induction false} ScanValue(v: Json, tail: ByteString)
    requires WellFormed(v)
    ensures Scan(ValueBytes(v) + tail, false, false) == (HasNull(v) || Scan(tail, false, false))
    decreases v, 0
  {
    match v
    case Null =>
      assert Letters("null") == NULL_TEXT;
      assert (NULL_TEXT + tail)[..4] == NULL_TEXT;
    case True => ScanQuiet(Letters("true"), tail);
    case False => ScanQuiet(Letters("false"), tail);
    case Number(_, _, _, _) =>
      NumberQuiet(v);
      ScanQuiet(NumberBytes(v), tail);
    case Text(characters) => ScanString(characters, tail);
    case EmptyArray(blank) =>
      ScanQuiet(blank, [0x5D] + tail);
      ScanBrackets(0x5B, blank, 0x5D, tail, false);
    case EmptyObject(blank) =>
      ScanQuiet(blank, [0x7D] + tail);
      ScanBrackets(0x7B, blank, 0x7D, tail, false);
    case Array(elements) =>
      ScanElements(elements, [0x5D] + tail);
      ScanBrackets(0x5B, ElementsBytes(elements), 0x5D, tail, ElementsHaveNull(elements));
    case Object(members) =>
      ScanMembers(members, [0x7D] + tail);
      ScanBrackets(0x7B, MembersBytes(members), 0x7D, tail, MembersHaveNull(members));
  }

  /** A value between blanks. */
  lemma {:induction false} ScanPadded(before: Blank, v: Json, after: Blank, tail: ByteString)
    requires IsBlank(before) && WellFormed(v) && IsBlank(after)
    ensures Scan(before + ValueBytes(v) + after + tail, false, false) == (HasNull(v) || Scan(tail, false, false))
    decreases v, 1
  {
    hide Scan, ValueBytes, HasNull, WellFormed;
    assert before + ValueBytes(v) + after + tail == before + (ValueBytes(v) + (after + tail));
    ScanQuiet(before, ValueBytes(v) + (after + tail));
    ScanValue(v, after + tail);
    ScanQuiet(after, tail);
  }

  lemma {:induction false} ScanElements(es: Elements, tail: ByteString)
    requires ElementsWellFormed(es)
    ensures Scan(ElementsBytes(es) + tail, false, false) == (ElementsHaveNull(es) || Scan(tail, false, false))
    decreases es
  {
    var item := es.before + ValueBytes(es.value) + es.after;
    hide Scan, ValueBytes, HasNull, WellFormed, IsBlank;
    if es.MoreElements? {
      var rest := ElementsBytes(es.rest);
      assert ElementsBytes(es) + tail == item + ([0x2C] + (rest + tail));
      ScanPadded(es.before, es.value, es.after, [0x2C] + (rest + tail));
      ScanOne(0x2C, rest + tail);
      ScanElements(es.rest, tail);
    } else {
      assert ElementsBytes(es) + tail == item + tail;
      ScanPadded(es.before, es.value, es.after, tail);
    }
  }

  lemma {:induction false} ScanMembers(ms: Members, tail: ByteString)
    requires MembersWellFormed(ms)
    ensures Scan(MembersBytes(ms) + tail, false, false) == (MembersHaveNull(ms) || Scan(tail, false, false))
    decreases ms
  {
    var item := ms.before + ValueBytes(ms.value) + ms.after;
    hide Scan, ValueBytes, HasNull, WellFormed, IsBlank, NameBytes, IsString;
    if ms.MoreMembers? {
      var rest := MembersBytes(ms.rest);
      assert MembersBytes(ms) + tail == NameBytes(ms.name) + (item + ([0x2C] + (rest + tail)));
      ScanName(ms.name, item + ([0x2C] + (rest + tail)));
      ScanPadded(ms.before, ms.value, ms.after, [0x2C] + (rest + tail));
      ScanOne(0x2C, rest + tail);
      ScanMembers(ms.rest, tail);
    } else {
      assert MembersBytes(ms) + tail == NameBytes(ms.name) + (item + tail);
      ScanName(ms.name, item + tail);
      ScanPadded(ms.before, ms.value, ms.after, tail);
    }
  }

  lemma ScanName(name: Name, tail: ByteString)
    requires IsBlank(name.before) && IsString(name.characters) && IsBlank(name.after)
    ensures Scan(NameBytes(name) + tail, false, false) == Scan(tail, false, false)
  {
    var text := StringBytes(name.characters);
    assert NameBytes(name) + tail == name.before + (text + (name.after + ([0x3A] + tail)));
    ScanQuiet(name.before, text + (name.after + ([0x3A] + tail)));
    ScanString(name.characters, name.after + ([0x3A] + tail));
    ScanQuiet(name.after, [0x3A] + tail);
    ScanOne(0x3A, tail);
  }

  /** The scanner agrees with the tree: it rejects a JSON text, with any blanks around the value,
      exactly if the value contains null at some depth. Nulls inside strings and names do not count. */
  lemma ScannerAgreesWithTree(before: Blank, v: Json, after: Blank)
    requires IsBlank(before) && WellFormed(v) && IsBlank(after)
    ensures Scan(before + ValueBytes(v) + after, false, false) <==> HasNull(v)
  {
    assert before + ValueBytes(v) + after + [] == before + ValueBytes(v) + after;
    ScanPadded(before, v, after, []);
  }
}
