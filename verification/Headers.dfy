/** The request headers on their way through the Go server: the Latin-1 codec of the envelope, and
    the loop of `handleRawRequest` that groups them by name without regard to case. */
module Headers {
  import opened Bytes
  import opened Options

  /** A Unicode code point of a decoded JSON string. */
  type Rune = n: int | 0 <= n <= 0x10_FFFF

  // ---- Latin-1 --------------------------------------------------------------------------------------

  /** `latin1ToBytes`: refused exactly if a code point is above 255. */
  method Latin1ToBytes(value: seq<Rune>) returns (result: Option<ByteString>)
    ensures result.Some? <==> forall k :: 0 <= k < |value| ==> value[k] <= 255
    ensures result.Some? ==> |result.value| == |value| && forall k :: 0 <= k < |value| ==> result.value[k] == value[k]
  {
    var bytes: ByteString := [];
    for i := 0 to |value|
      invariant |bytes| == i && forall k :: 0 <= k < i ==> bytes[k] == value[k]
    {
      if value[i] > 255 {
        return None;
      }
      bytes := bytes + [value[i]];
    }
    return Some(bytes);
  }

  /** `bytesToLatin1`. */
  method BytesToLatin1(value: ByteString) returns (chars: seq<Rune>)
    ensures |chars| == |value| && forall k :: 0 <= k < |value| ==> chars[k] == value[k]
  {
    var runes := new Rune[|value|];
    for i := 0 to |value|
      invariant forall k :: 0 <= k < i ==> runes[k] == value[k]
    {
      runes[i] := value[i];
    }
    return runes[..];
  }

  /** Every byte string survives the codec. */
  method Latin1RoundTrip(value: ByteString) returns (again: Option<ByteString>)
    ensures again == Some(value)
  {
    var chars := BytesToLatin1(value);
    again := Latin1ToBytes(chars);
    assert again.value == value;
  }

  /** And every text that is accepted comes back. */
  method Latin1RoundTripText(value: seq<Rune>) returns (again: Option<seq<Rune>>)
    ensures again == if exists k :: 0 <= k < |value| && value[k] > 255 then None else Some(value)
  {
    var bytes := Latin1ToBytes(value);
    if bytes == None {
      return None;
    }
    var chars := BytesToLatin1(bytes.value);
    assert chars == value;
    return Some(chars);
  }

  // ---- grouping -------------------------------------------------------------------------------------

  datatype Header = Header(name: ByteString, value: ByteString)

  const HOST: ByteString := [0x48, 0x6F, 0x73, 0x74]
  const FOLDED_HOST: ByteString := [0x68, 0x6F, 0x73, 0x74]
  const CONNECTION: ByteString := [0x43, 0x6F, 0x6E, 0x6E, 0x65, 0x63, 0x74, 0x69, 0x6F, 0x6E]

  function LowerByte(b: Byte): Byte {
    if 0x41 <= b <= 0x5A then b + 0x20 else b
  }

  /** `strings.ToLower` on a header name; names are ASCII tokens by then. */
  function Folded(name: ByteString): (r: ByteString)
    ensures |r| == |name| && forall k :: 0 <= k < |name| ==> r[k] == LowerByte(name[k])
  {
    seq(|name|, k requires 0 <= k < |name| => LowerByte(name[k]))
  }

  /** Two names that differ in the case of ASCII letters only. */
  predicate SameName(a: ByteString, b: ByteString) {
    && |a| == |b|
    && forall k :: 0 <= k < |a| ==>
         || a[k] == b[k]
         || ('A' as int <= a[k] <= 'Z' as int && b[k] == a[k] + 32)
         || ('A' as int <= b[k] <= 'Z' as int && a[k] == b[k] + 32)
  }

  lemma FoldedIff(a: ByteString, b: ByteString)
    ensures Folded(a) == Folded(b) <==> SameName(a, b)
  {
    if Folded(a) == Folded(b) {
      assert forall k :: 0 <= k < |a| ==> LowerByte(a[k]) == Folded(a)[k] == Folded(b)[k] == LowerByte(b[k]);
    }
  }

  lemma SpecialNames()
    ensures HOST == Letters("Host") && FOLDED_HOST == Folded(Letters("Host"))
    ensures CONNECTION == Letters("Connection")
  {
  }

  /** The spelling that is kept: the first one, except that `Host` has one of its own. */
  function Spelling(name: ByteString): ByteString {
    if Folded(name) == FOLDED_HOST then HOST else name
  }

  lemma SpellingFolds(name: ByteString)
    ensures Folded(Spelling(name)) == Folded(name)
  {
    assert Folded(HOST) == FOLDED_HOST;
  }

  /** The values under one case-folded name, in order. */
  function Values(headers: seq<Header>, folded: ByteString): seq<ByteString> {
    if headers == [] then []
    else
      var last := headers[|headers| - 1];
      Values(headers[..|headers| - 1], folded) + if Folded(last.name) == folded then [last.value] else []
  }

  predicate IsFirst(headers: seq<Header>, i: nat) {
    i < |headers| && forall j :: 0 <= j < i ==> Folded(headers[j].name) != Folded(headers[i].name)
  }

  /** The places, in order, where a name occurs for the first time. */
  ghost predicate FirstPlaces(headers: seq<Header>, places: seq<nat>) {
    && (forall k :: 0 <= k < |places| ==> IsFirst(headers, places[k]))
    && (forall j, k :: 0 <= j < k < |places| ==> places[j] < places[k])
    && forall i :: 0 <= i < |headers| && IsFirst(headers, i) ==> i in places
  }

  /** The automatic order: the spelling of every name at its first place. */
  ghost predicate Ordered(headers: seq<Header>, order: seq<ByteString>, places: seq<nat>) {
    && FirstPlaces(headers, places) && |order| == |places|
    && forall k :: 0 <= k < |order| ==> order[k] == Spelling(headers[places[k]].name)
  }

  /** The map: under every name of the order the values of that name, and nothing else. */
  ghost predicate Filled(headers: seq<Header>, grouped: map<ByteString, seq<ByteString>>, order: seq<ByteString>) {
    && (forall k :: 0 <= k < |order| ==> order[k] in grouped && grouped[order[k]] == Values(headers, Folded(order[k])))
    && forall name :: name in grouped ==> name in order
  }

  /** What the loop has made of some headers. */
  ghost predicate GroupedAs(headers: seq<Header>, grouped: map<ByteString, seq<ByteString>>, order: seq<ByteString>, places: seq<nat>) {
    Ordered(headers, order, places) && Filled(headers, grouped, order)
  }

  predicate Seen(headers: seq<Header>, folded: ByteString) {
    exists i :: 0 <= i < |headers| && Folded(headers[i].name) == folded
  }

  lemma {:induction false} ValuesOfUnseen(headers: seq<Header>, folded: ByteString)
    requires !Seen(headers, folded)
    ensures Values(headers, folded) == []
  {
    if headers != [] {
      ValuesOfUnseen(headers[..|headers| - 1], folded);
    }
  }

  lemma OneMoreValue(headers: seq<Header>, pair: Header, folded: ByteString)
    ensures Values(headers + [pair], folded) == Values(headers, folded) + if Folded(pair.name) == folded then [pair.value] else []
  {
    assert (headers + [pair])[..|headers|] == headers;
  }

  lemma PlacesSeen(headers: seq<Header>, pair: Header, places: seq<nat>)
    requires FirstPlaces(headers, places) && Seen(headers, Folded(pair.name))
    ensures FirstPlaces(headers + [pair], places)
  {
    hide Folded;
    var more := headers + [pair];
    assert forall i :: 0 <= i < |headers| ==> more[i] == headers[i];
    forall i | 0 <= i < |more| && IsFirst(more, i)
      ensures i in places
    {
      assert i < |headers| ==> IsFirst(headers, i);
    }
    forall k | 0 <= k < |places|
      ensures IsFirst(more, places[k])
    {
      assert IsFirst(headers, places[k]);
    }
  }

  lemma PlacesNew(headers: seq<Header>, pair: Header, places: seq<nat>)
    requires FirstPlaces(headers, places) && !Seen(headers, Folded(pair.name))
    ensures FirstPlaces(headers + [pair], places + [|headers|])
  {
    hide Folded;
    var more, all := headers + [pair], places + [|headers|];
    assert forall i :: 0 <= i < |headers| ==> more[i] == headers[i];
    forall i | 0 <= i < |more| && IsFirst(more, i)
      ensures i in all
    {
      if i < |headers| {
        assert IsFirst(headers, i);
        assert i in places;
      } else {
        assert all[|places|] == i;
      }
    }
    forall k | 0 <= k < |all|
      ensures IsFirst(more, all[k])
    {
      assert k < |places| ==> IsFirst(headers, places[k]);
    }
  }

  predicate DistinctNames(order: seq<ByteString>) {
    forall j, k :: 0 <= j < k < |order| ==> Folded(order[j]) != Folded(order[k])
  }

  /** Distinct case-folded names are never merged, and no name is listed twice. */
  lemma NamesDistinct(headers: seq<Header>, grouped: map<ByteString, seq<ByteString>>, order: seq<ByteString>, places: seq<nat>)
    requires GroupedAs(headers, grouped, order, places)
    ensures forall j, k :: 0 <= j < k < |order| ==> Folded(order[j]) != Folded(order[k])
    ensures forall k :: 0 <= k < |order| ==> Folded(order[k]) == Folded(headers[places[k]].name)
  {
    hide Folded, Values;
    forall k | 0 <= k < |order|
      ensures Folded(order[k]) == Folded(headers[places[k]].name)
    {
      SpellingFolds(headers[places[k]].name);
    }
    forall j, k | 0 <= j < k < |order|
      ensures Folded(order[j]) != Folded(order[k])
    {
      assert IsFirst(headers, places[k]) && places[j] < places[k];
    }
  }

  lemma OrderSeen(headers: seq<Header>, pair: Header, order: seq<ByteString>, places: seq<nat>)
    requires Ordered(headers, order, places) && Seen(headers, Folded(pair.name))
    ensures Ordered(headers + [pair], order, places)
  {
    PlacesSeen(headers, pair, places);
    assert forall k :: 0 <= k < |places| ==> IsFirst(headers, places[k]);
    hide Folded, Spelling, Seen;
  }

  /** A value appended under the name at place `j` of the order. */
  lemma FilledSeen(headers: seq<Header>, pair: Header, grouped: map<ByteString, seq<ByteString>>, order: seq<ByteString>, j: nat)
    requires Filled(headers, grouped, order) && DistinctNames(order) && j < |order| && Folded(order[j]) == Folded(pair.name)
    ensures Filled(headers + [pair], grouped[order[j] := grouped[order[j]] + [pair.value]], order)
  {
    hide Folded, Values;
    var more := grouped[order[j] := grouped[order[j]] + [pair.value]];
    forall k | 0 <= k < |order|
      ensures order[k] in more && more[order[k]] == Values(headers + [pair], Folded(order[k]))
    {
      OneMoreValue(headers, pair, Folded(order[k]));
      assert j != k ==> Folded(order[j]) != Folded(order[k]);
    }
  }

  lemma GroupSeen(headers: seq<Header>, pair: Header, name: ByteString,
                  grouped: map<ByteString, seq<ByteString>>, order: seq<ByteString>, places: seq<nat>)
    requires GroupedAs(headers, grouped, order, places) && Seen(headers, Folded(pair.name))
    requires name in order && Folded(name) == Folded(pair.name)
    ensures name in grouped && GroupedAs(headers + [pair], grouped[name := grouped[name] + [pair.value]], order, places)
  {
    NamesDistinct(headers, grouped, order, places);
    assert DistinctNames(order);
    var j :| 0 <= j < |order| && order[j] == name;
    assert order[j] in grouped;
    hide Folded, Ordered, Filled, Seen, DistinctNames;
    OrderSeen(headers, pair, order, places);
    FilledSeen(headers, pair, grouped, order, j);
  }

  lemma GroupNew(headers: seq<Header>, pair: Header,
                 grouped: map<ByteString, seq<ByteString>>, order: seq<ByteString>, places: seq<nat>)
    requires GroupedAs(headers, grouped, order, places) && !Seen(headers, Folded(pair.name))
    ensures var name := Spelling(pair.name);
            && name !in grouped
            && GroupedAs(headers + [pair], grouped[name := [pair.value]], order + [name], places + [|headers|])
  {
    var name, folded := Spelling(pair.name), Folded(pair.name);
    var more, all := headers + [pair], places + [|headers|];
    NamesDistinct(headers, grouped, order, places);
    PlacesNew(headers, pair, places);
    SpellingFolds(pair.name);
    ValuesOfUnseen(headers, folded);
    OneMoreValue(headers, pair, folded);
    forall k | 0 <= k < |order|
      ensures Folded(order[k]) != folded && places[k] < |headers|
    {
      assert IsFirst(headers, places[k]);
    }
    hide Folded, Values, FirstPlaces, Spelling, Seen;
    forall k | 0 <= k < |order|
      ensures order[k] != name && grouped[order[k]] == Values(more, Folded(order[k]))
    {
      OneMoreValue(headers, pair, Folded(order[k]));
    }
  }

  ghost predicate NamesFit(headers: seq<Header>, names: map<ByteString, ByteString>, order: seq<ByteString>) {
    forall folded ::
      && (folded in names <==> Seen(headers, folded))
      && (folded in names ==> names[folded] in order && Folded(names[folded]) == folded)
  }

  lemma NamesKept(headers: seq<Header>, pair: Header, names: map<ByteString, ByteString>, order: seq<ByteString>, name: ByteString)
    requires NamesFit(headers, names, order) && Folded(name) == Folded(pair.name)
    ensures NamesFit(headers + [pair], names[Folded(pair.name) := name], order + [name])
    ensures Folded(pair.name) in names ==> NamesFit(headers + [pair], names, order)
  {
    hide Folded;
    var more := headers + [pair];
    assert more[|headers|] == pair && forall i :: 0 <= i < |headers| ==> more[i] == headers[i];
    forall folded
      ensures Seen(more, folded) <==> Seen(headers, folded) || folded == Folded(pair.name)
    {
      if Seen(headers, folded) {
        var i :| 0 <= i < |headers| && Folded(headers[i].name) == folded;
        assert Folded(more[i].name) == folded;
      }
    }
    hide Seen;
    assert (order + [name])[|order|] == name;
  }

  /** The loop of `handleRawRequest`. */
  method Regroup(headers: seq<Header>) returns (grouped: map<ByteString, seq<ByteString>>, order: seq<ByteString>)
    ensures exists places: seq<nat> :: GroupedAs(headers, grouped, order, places)
  {
    grouped, order := map[], [];
    ghost var places: seq<nat> := [];
    var names: map<ByteString, ByteString> := map[];
    hide Folded, Values, Spelling;
    for i := 0 to |headers|
      invariant GroupedAs(headers[..i], grouped, order, places)
      invariant NamesFit(headers[..i], names, order)
    {
      hide GroupedAs, Seen;
      var pair := headers[i];
      assert headers[..i + 1] == headers[..i] + [pair];
      var folded := Folded(pair.name);
      if folded in names {
        var name := names[folded];
        NamesKept(headers[..i], pair, names, order, name);
        GroupSeen(headers[..i], pair, name, grouped, order, places);
        grouped := grouped[name := grouped[name] + [pair.value]];
      } else {
        var name := SpellingOf(pair.name, folded);
        SpellingFolds(pair.name);
        NamesKept(headers[..i], pair, names, order, name);
        GroupNew(headers[..i], pair, grouped, order, places);
        names := names[folded := name];
        order := order + [name];
        places := places + [i];
        grouped := grouped[name := [pair.value]];
      }
    }
    assert headers[..|headers|] == headers;
  }

  method SpellingOf(original: ByteString, folded: ByteString) returns (name: ByteString)
    requires folded == Folded(original)
    ensures name == Spelling(original)
  {
    name := original;
    if folded == FOLDED_HOST {
      name := HOST;
    }
  }

  // ---- nothing is lost, invented or reordered ---------------------------------------------------------

  function Row(name: ByteString, values: seq<ByteString>): seq<Header> {
    seq(|values|, k requires 0 <= k < |values| => Header(name, values[k]))
  }

  /** The headers as they are written out, name after name. */
  function Flatten(grouped: map<ByteString, seq<ByteString>>, order: seq<ByteString>): seq<Header>
    requires forall name :: name in order ==> name in grouped
  {
    if order == [] then []
    else
      var last := order[|order| - 1];
      Flatten(grouped, order[..|order| - 1]) + Row(last, grouped[last])
  }

  /** The place of the first header with the name of one that is written: `Host` is always spelled so,
      any other name as it came first. */
  predicate NamedFirst(headers: seq<Header>, place: nat, name: ByteString) {
    && IsFirst(headers, place)
    && name == if SameName(headers[place].name, Letters("Host")) then Letters("Host") else headers[place].name
  }

  /** The headers are written name after name, in the order in which the names came first. */
  ghost predicate WrittenInOrder(headers: seq<Header>, written: seq<Header>) {
    exists places: seq<nat> :: |places| == |written| && PlacedInOrder(headers, written, places)
  }

  ghost predicate PlacedInOrder(headers: seq<Header>, written: seq<Header>, places: seq<nat>)
    requires |places| == |written|
  {
    && (forall i :: 0 <= i < |written| ==> NamedFirst(headers, places[i], written[i].name))
    && forall i, j :: 0 <= i < j < |written| ==> places[i] <= places[j]
  }

  lemma SpelledFirst(headers: seq<Header>, place: nat)
    requires IsFirst(headers, place)
    ensures NamedFirst(headers, place, Spelling(headers[place].name))
  {
    SpecialNames();
    FoldedIff(headers[place].name, Letters("Host"));
    hide Folded;
  }

  /** Names in order of their first places make rows in that order. */
  lemma {:induction false} FlattenInOrder(headers: seq<Header>, grouped: map<ByteString, seq<ByteString>>, order: seq<ByteString>,
                                          first: seq<nat>) returns (places: seq<nat>)
    requires (forall name :: name in order ==> name in grouped) && |first| == |order|
    requires forall k :: 0 <= k < |order| ==> NamedFirst(headers, first[k], order[k])
    requires forall j, k :: 0 <= j < k < |first| ==> first[j] < first[k]
    ensures |places| == |Flatten(grouped, order)| && PlacedInOrder(headers, Flatten(grouped, order), places)
    ensures forall i :: 0 <= i < |places| ==> places[i] in first
    decreases |order|
  {
    hide NamedFirst;
    if order == [] {
      places := [];
    } else {
      var n := |order| - 1;
      var front := FlattenInOrder(headers, grouped, order[..n], first[..n]);
      var row := seq(|grouped[order[n]]|, k => first[n]);
      places := front + row;
      assert forall k :: 0 <= k < n ==> first[..n][k] <= first[n];
      assert forall i :: 0 <= i < |front| ==> front[i] in first[..n];
      OneMoreRow(headers, Flatten(grouped, order[..n]), front, order[n], grouped[order[n]], first[n]);
    }
  }

  lemma OneMoreRow(headers: seq<Header>, front: seq<Header>, places: seq<nat>, name: ByteString, values: seq<ByteString>, place: nat)
    requires |places| == |front| && PlacedInOrder(headers, front, places) && NamedFirst(headers, place, name)
    requires forall i :: 0 <= i < |places| ==> places[i] <= place
    ensures PlacedInOrder(headers, front + Row(name, values), places + seq(|values|, k => place))
  {
    hide NamedFirst;
    var written, all := front + Row(name, values), places + seq(|values|, k => place);
    forall i | 0 <= i < |written|
      ensures NamedFirst(headers, all[i], written[i].name)
    {
      if i < |front| {
        assert written[i] == front[i] && all[i] == places[i];
      }
    }
  }

  lemma {:induction false} ValuesOfRow(name: ByteString, values: seq<ByteString>, folded: ByteString)
    ensures Values(Row(name, values), folded) == if Folded(name) == folded then values else []
    decreases |values|
  {
    hide Folded;
    if values == [] {
      assert Row(name, values) == [];
    } else {
      hide Values;
      var init, last := values[..|values| - 1], values[|values| - 1];
      assert Row(name, values) == Row(name, init) + [Header(name, last)] && values == init + [last];
      ValuesOfRow(name, init, folded);
      OneMoreValue(Row(name, init), Header(name, last), folded);
    }
  }

  lemma {:induction false} ValuesOfSum(a: seq<Header>, b: seq<Header>, folded: ByteString)
    ensures Values(a + b, folded) == Values(a, folded) + Values(b, folded)
    decreases |b|
  {
    if b == [] {
      assert a + b == a;
    } else {
      var init, last := b[..|b| - 1], b[|b| - 1];
      assert a + b == (a + init) + [last] && b == init + [last];
      hide Folded;
      OneMoreValue(a + init, last, folded);
      OneMoreValue(init, last, folded);
      hide Values;
      ValuesOfSum(a, init, folded);
    }
  }

  lemma ValuesOfLastRow(grouped: map<ByteString, seq<ByteString>>, order: seq<ByteString>, folded: ByteString)
    requires (forall name :: name in order ==> name in grouped) && order != []
    ensures var init, last := order[..|order| - 1], order[|order| - 1];
            && (forall name :: name in init ==> name in grouped) && last in grouped
            && Values(Flatten(grouped, order), folded) ==
                 Values(Flatten(grouped, init), folded) + if Folded(last) == folded then grouped[last] else []
  {
    hide Folded, Row, Values;
    var init, last := order[..|order| - 1], order[|order| - 1];
    ValuesOfSum(Flatten(grouped, init), Row(last, grouped[last]), folded);
    ValuesOfRow(last, grouped[last], folded);
  }

  lemma {:induction false} NoValuesInFlatten(grouped: map<ByteString, seq<ByteString>>, order: seq<ByteString>, folded: ByteString)
    requires forall name :: name in order ==> name in grouped
    requires forall k :: 0 <= k < |order| ==> Folded(order[k]) != folded
    ensures Values(Flatten(grouped, order), folded) == []
    decreases |order|
  {
    hide Folded;
    if order != [] {
      hide Flatten, Values;
      ValuesOfLastRow(grouped, order, folded);
      NoValuesInFlatten(grouped, order[..|order| - 1], folded);
    }
  }

  lemma {:induction false} ValuesInFlatten(grouped: map<ByteString, seq<ByteString>>, order: seq<ByteString>, k: nat)
    requires (forall name :: name in order ==> name in grouped) && DistinctNames(order) && k < |order|
    ensures Values(Flatten(grouped, order), Folded(order[k])) == grouped[order[k]]
    decreases |order|
  {
    hide Folded, Flatten, Values;
    var init, folded := order[..|order| - 1], Folded(order[k]);
    ValuesOfLastRow(grouped, order, folded);
    if k == |order| - 1 {
      NoValuesInFlatten(grouped, init, folded);
    } else {
      assert Folded(order[|order| - 1]) != folded && init[k] == order[k];
      ValuesInFlatten(grouped, init, k);
    }
  }

  lemma {:induction false} FirstOf(headers: seq<Header>, folded: ByteString, n: nat) returns (i: nat)
    requires n <= |headers| && exists j :: 0 <= j < n && Folded(headers[j].name) == folded
    ensures IsFirst(headers, i) && Folded(headers[i].name) == folded
    decreases n
  {
    hide Folded;
    if exists j :: 0 <= j < n - 1 && Folded(headers[j].name) == folded {
      i := FirstOf(headers, folded, n - 1);
    } else {
      i := n - 1;
    }
  }

  /** The headers as a bag of case-folded names with values. */
  function Bag(headers: seq<Header>): multiset<(ByteString, ByteString)> {
    if headers == [] then multiset{}
    else
      var last := headers[|headers| - 1];
      Bag(headers[..|headers| - 1]) + multiset{(Folded(last.name), last.value)}
  }

  lemma {:induction false} BagCounts(headers: seq<Header>, folded: ByteString, value: ByteString)
    ensures Bag(headers)[(folded, value)] == multiset(Values(headers, folded))[value]
  {
    hide Folded;
    if headers != [] {
      BagCounts(headers[..|headers| - 1], folded, value);
    }
  }

  lemma SameBag(a: seq<Header>, b: seq<Header>)
    requires forall folded :: Values(a, folded) == Values(b, folded)
    ensures Bag(a) == Bag(b)
  {
    forall pair: (ByteString, ByteString)
      ensures Bag(a)[pair] == Bag(b)[pair]
    {
      BagCounts(a, pair.0, pair.1);
      BagCounts(b, pair.0, pair.1);
    }
  }

  /** Grouping is stable and complete: written out in the automatic order, the names follow each other
      as they came first, every name has exactly its own values in the order they came in, and the
      headers are the same bag as before. */
  lemma RegroupingIsStable(headers: seq<Header>, grouped: map<ByteString, seq<ByteString>>, order: seq<ByteString>, places: seq<nat>)
    requires GroupedAs(headers, grouped, order, places)
    ensures forall name :: name in order ==> name in grouped
    ensures forall folded :: Values(Flatten(grouped, order), folded) == Values(headers, folded)
    ensures Bag(Flatten(grouped, order)) == Bag(headers)
    ensures WrittenInOrder(headers, Flatten(grouped, order))
  {
    RowsInOrder(headers, grouped, order, places);
    hide WrittenInOrder;
    NamesDistinct(headers, grouped, order, places);
    assert forall name :: name in order ==> name in grouped;
    var flat := Flatten(grouped, order);
    forall folded
      ensures Values(flat, folded) == Values(headers, folded)
    {
      StableFor(headers, grouped, order, places, folded);
    }
    SameBag(flat, headers);
  }

  lemma RowsInOrder(headers: seq<Header>, grouped: map<ByteString, seq<ByteString>>, order: seq<ByteString>, places: seq<nat>)
    requires GroupedAs(headers, grouped, order, places)
    ensures forall name :: name in order ==> name in grouped
    ensures WrittenInOrder(headers, Flatten(grouped, order))
  {
    hide Spelling, Values, Flatten, NamedFirst;
    forall k | 0 <= k < |order|
      ensures NamedFirst(headers, places[k], order[k])
    {
      SpelledFirst(headers, places[k]);
    }
    var rows := FlattenInOrder(headers, grouped, order, places);
  }

  lemma StableFor(headers: seq<Header>, grouped: map<ByteString, seq<ByteString>>, order: seq<ByteString>, places: seq<nat>,
                  folded: ByteString)
    requires GroupedAs(headers, grouped, order, places) && (forall name :: name in order ==> name in grouped)
    ensures Values(Flatten(grouped, order), folded) == Values(headers, folded)
  {
    NamesDistinct(headers, grouped, order, places);
    hide Folded, Values, Flatten;
    assert DistinctNames(order);
    if Seen(headers, folded) {
      var i := FirstOf(headers, folded, |headers|);
      assert i in places;
      var k :| 0 <= k < |places| && places[k] == i;
      ValuesInFlatten(grouped, order, k);
    } else {
      ValuesOfUnseen(headers, folded);
      assert forall k :: 0 <= k < |order| ==> IsFirst(headers, places[k]);
      NoValuesInFlatten(grouped, order, folded);
    }
  }

  // ---- from the envelope to the request ---------------------------------------------------------------

  /** A header of the JSON envelope. */
  datatype Pair = Pair(name: seq<Rune>, value: seq<Rune>)

  const MAX_HEADERS := 256
  const MAX_NAME := 256
  const MAX_VALUE := 16384
  const MAX_HEADER_BYTES := 0x10_0000

  predicate IsLatin1(text: seq<Rune>) {
    forall k :: 0 <= k < |text| ==> text[k] <= 255
  }

  function Narrow(text: seq<Rune>): (r: ByteString)
    requires IsLatin1(text)
    ensures |r| == |text| && forall k :: 0 <= k < |text| ==> r[k] == text[k]
  {
    seq(|text|, k requires 0 <= k < |text| => text[k])
  }

  function Widen(bytes: ByteString): (r: seq<Rune>)
    ensures |r| == |bytes| && IsLatin1(r) && forall k :: 0 <= k < |bytes| ==> r[k] == bytes[k]
  {
    seq(|bytes|, k requires 0 <= k < |bytes| => bytes[k])
  }

  predicate IsTokenByte(b: Byte) {
    || 0x30 <= b <= 0x39 || 0x41 <= b <= 0x5A || 0x61 <= b <= 0x7A
    || b in [0x21, 0x23, 0x24, 0x25, 0x26, 0x27, 0x2A, 0x2B, 0x2D, 0x2E, 0x5E, 0x5F, 0x60, 0x7C, 0x7E]
  }

  /** `isHTTPToken`. */
  predicate IsToken(name: ByteString) {
    name != [] && forall k :: 0 <= k < |name| ==> IsTokenByte(name[k])
  }

  /** `isHTTPHeaderValue`. */
  predicate IsHeaderValue(value: ByteString) {
    forall k :: 0 <= k < |value| ==> value[k] == 0x09 || (value[k] >= 0x20 && value[k] != 0x7F)
  }

  /** `tchar` of section 5.6.2 of RFC 9110. */
  predicate IsTokenChar(b: Byte) {
    || '0' as int <= b <= '9' as int || 'A' as int <= b <= 'Z' as int || 'a' as int <= b <= 'z' as int
    || b in Letters("!#$%&'*+-.^_`|~")
  }

  /** A token of at most 256 bytes, and a value of at most 16384 bytes without control characters
      other than the tab. */
  predicate AcceptedHeader(h: Header) {
    && 0 < |h.name| <= 256 && (forall k :: 0 <= k < |h.name| ==> IsTokenChar(h.name[k]))
    && |h.value| <= 16384
    && forall k :: 0 <= k < |h.value| ==> h.value[k] == 9 || 32 <= h.value[k] <= 126 || h.value[k] >= 128
  }

  lemma TokenChars(b: Byte)
    ensures IsTokenByte(b) <==> IsTokenChar(b)
  {
    var marks := Letters("!#$%&'*+-.^_`|~");
    assert marks == [0x21, 0x23, 0x24, 0x25, 0x26, 0x27, 0x2A, 0x2B, 0x2D, 0x2E, 0x5E, 0x5F, 0x60, 0x7C, 0x7E];
  }

  lemma AcceptedIff(h: Header)
    ensures AcceptedHeader(h) <==> |h.name| <= MAX_NAME && IsToken(h.name) && |h.value| <= MAX_VALUE && IsHeaderValue(h.value)
  {
    forall k | 0 <= k < |h.name|
      ensures IsTokenByte(h.name[k]) <==> IsTokenChar(h.name[k])
    {
      TokenChars(h.name[k]);
    }
    hide IsTokenByte, IsTokenChar;
  }

  function TotalBytes(headers: seq<Header>): nat {
    if headers == [] then 0
    else
      var last := headers[|headers| - 1];
      TotalBytes(headers[..|headers| - 1]) + |last.name| + |last.value|
  }

  predicate AcceptedHeaders(headers: seq<Header>) {
    && |headers| <= 256 && TotalBytes(headers) <= 1048576
    && forall k :: 0 <= k < |headers| ==> AcceptedHeader(headers[k])
  }

  predicate AllLatin1(pairs: seq<Pair>) {
    forall k :: 0 <= k < |pairs| ==> IsLatin1(pairs[k].name) && IsLatin1(pairs[k].value)
  }

  function NarrowAll(pairs: seq<Pair>): (r: seq<Header>)
    requires AllLatin1(pairs)
    ensures |r| == |pairs|
    ensures forall k :: 0 <= k < |pairs| ==> r[k] == Header(Narrow(pairs[k].name), Narrow(pairs[k].value))
  {
    seq(|pairs|, k requires 0 <= k < |pairs| => Header(Narrow(pairs[k].name), Narrow(pairs[k].value)))
  }

  function WidenAll(headers: seq<Header>): (r: seq<Pair>)
    ensures |r| == |headers| && AllLatin1(r)
  {
    seq(|headers|, k requires 0 <= k < |headers| => Pair(Widen(headers[k].name), Widen(headers[k].value)))
  }

  lemma NarrowOfWiden(headers: seq<Header>)
    ensures NarrowAll(WidenAll(headers)) == headers
  {
    forall k | 0 <= k < |headers|
      ensures NarrowAll(WidenAll(headers))[k] == headers[k]
    {
      assert Narrow(Widen(headers[k].name)) == headers[k].name;
      assert Narrow(Widen(headers[k].value)) == headers[k].value;
    }
  }

  lemma {:induction false} TotalGrows(headers: seq<Header>, n: nat)
    requires n <= |headers|
    ensures TotalBytes(headers[..n]) <= TotalBytes(headers)
    decreases |headers|
  {
    if n < |headers| {
      var front := headers[..|headers| - 1];
      assert front[..n] == headers[..n];
      TotalGrows(front, n);
    } else {
      assert headers[..n] == headers;
    }
  }

  predicate AcceptedPair(pair: Pair) {
    IsLatin1(pair.name) && IsLatin1(pair.value) && AcceptedHeader(Header(Narrow(pair.name), Narrow(pair.value)))
  }

  /** One round of the loop below, up to the count of the bytes. */
  method DecodeHeader(pair: Pair) returns (r: Option<Header>)
    ensures r.Some? <==> AcceptedPair(pair)
    ensures r.Some? ==> r.value == Header(Narrow(pair.name), Narrow(pair.value))
  {
    if IsLatin1(pair.name) && IsLatin1(pair.value) {
      AcceptedIff(Header(Narrow(pair.name), Narrow(pair.value)));
    }
    hide IsToken, IsHeaderValue, AcceptedHeader;
    var name := Latin1ToBytes(pair.name);
    if name == None {
      return None;
    }
    assert name.value == Narrow(pair.name);
    if |name.value| > MAX_NAME || !IsToken(name.value) {
      return None;
    }
    var value := Latin1ToBytes(pair.value);
    if value == None {
      return None;
    }
    assert value.value == Narrow(pair.value);
    if |value.value| > MAX_VALUE || !IsHeaderValue(value.value) {
      return None;
    }
    return Some(Header(name.value, value.value));
  }

  /** The header loop of `decodeRequestEnvelope`. */
  method DecodeHeaders(pairs: seq<Pair>) returns (r: Option<seq<Header>>)
    ensures r.Some? <==> AllLatin1(pairs) && AcceptedHeaders(NarrowAll(pairs))
    ensures r.Some? ==> r.value == NarrowAll(pairs)
  {
    if |pairs| > MAX_HEADERS {
      return None;
    }
    var headers: seq<Header> := [];
    var headerBytes := 0;
    hide IsLatin1, Narrow, AcceptedHeader;
    for i := 0 to |pairs|
      invariant AllLatin1(pairs[..i]) && headers == NarrowAll(pairs[..i])
      invariant headerBytes == TotalBytes(headers) <= MAX_HEADER_BYTES
      invariant forall k :: 0 <= k < i ==> AcceptedHeader(headers[k])
    {
      hide AllLatin1, NarrowAll, AcceptedHeaders, TotalBytes;
      var header := DecodeHeader(pairs[i]);
      if header == None {
        RefusedAt(pairs, i);
        return None;
      }
      NarrowMore(pairs, i, headers, header.value);
      headerBytes := headerBytes + |header.value.name| + |header.value.value|;
      if headerBytes > MAX_HEADER_BYTES {
        TooLong(pairs, i + 1);
        return None;
      }
      headers := headers + [header.value];
    }
    assert pairs[..|pairs|] == pairs;
    return Some(headers);
  }

  lemma NarrowMore(pairs: seq<Pair>, i: nat, headers: seq<Header>, header: Header)
    requires i < |pairs| && AllLatin1(pairs[..i]) && headers == NarrowAll(pairs[..i])
    requires IsLatin1(pairs[i].name) && IsLatin1(pairs[i].value) && header == Header(Narrow(pairs[i].name), Narrow(pairs[i].value))
    ensures AllLatin1(pairs[..i + 1]) && NarrowAll(pairs[..i + 1]) == headers + [header]
    ensures TotalBytes(headers + [header]) == TotalBytes(headers) + |header.name| + |header.value|
  {
    assert pairs[..i + 1] == pairs[..i] + [pairs[i]];
    assert (headers + [header])[..|headers|] == headers;
    hide IsLatin1, Narrow;
  }

  lemma RefusedAt(pairs: seq<Pair>, i: nat)
    requires i < |pairs| && !AcceptedPair(pairs[i])
    ensures !(AllLatin1(pairs) && AcceptedHeaders(NarrowAll(pairs)))
  {
    hide IsLatin1, Narrow, AcceptedHeader;
    if AllLatin1(pairs) {
      assert NarrowAll(pairs)[i] == Header(Narrow(pairs[i].name), Narrow(pairs[i].value));
    }
  }

  lemma TooLong(pairs: seq<Pair>, n: nat)
    requires n <= |pairs| && AllLatin1(pairs[..n]) && TotalBytes(NarrowAll(pairs[..n])) > MAX_HEADER_BYTES
    ensures !(AllLatin1(pairs) && AcceptedHeaders(NarrowAll(pairs)))
  {
    hide IsLatin1, Narrow, AcceptedHeader, TotalBytes;
    if AllLatin1(pairs) {
      assert NarrowAll(pairs[..n]) == NarrowAll(pairs)[..n];
      TotalGrows(NarrowAll(pairs), n);
    }
  }

  /** The headers were grouped and written out name after name. */
  ghost predicate WrittenFrom(headers: seq<Header>, grouped: map<ByteString, seq<ByteString>>, order: seq<ByteString>,
                              places: seq<nat>, written: seq<Header>) {
    && GroupedAs(headers, grouped, order, places)
    && (forall name :: name in order ==> name in grouped) && written == Flatten(grouped, order)
  }

  /** Envelope to request, without close_connection: what is accepted reaches the automatic order
      complete, byte for byte: names in order of first occurrence with their first spelling, and under
      each its values in their order. */
  method RequestHeaders(pairs: seq<Pair>) returns (accepted: bool, written: seq<Header>)
    ensures accepted <==> AllLatin1(pairs) && AcceptedHeaders(NarrowAll(pairs))
    ensures accepted ==> exists grouped, order, places: seq<nat> ::
              WrittenFrom(NarrowAll(pairs), grouped, order, places, written)
    ensures accepted ==> Bag(written) == Bag(NarrowAll(pairs))
    ensures accepted ==> WrittenInOrder(NarrowAll(pairs), written)
    ensures accepted ==> forall folded :: Values(written, folded) == Values(NarrowAll(pairs), folded)
  {
    var headers := DecodeHeaders(pairs);
    if headers == None {
      return false, [];
    }
    hide Values, Bag, Folded, WrittenInOrder;
    var grouped, order := Regroup(headers.value);
    ghost var places: seq<nat> :| GroupedAs(headers.value, grouped, order, places);
    RegroupingIsStable(headers.value, grouped, order, places);
    hide GroupedAs, Flatten;
    written := Flatten(grouped, order);
    assert WrittenFrom(headers.value, grouped, order, places, written);
    return true, written;
  }

  /** So headers of accepted bytes, spelled out as Latin-1 text by the client, are lost in no way. */
  method SendHeaders(headers: seq<Header>) returns (written: seq<Header>)
    requires AcceptedHeaders(headers)
    ensures WrittenInOrder(headers, written)
    ensures Bag(written) == Bag(headers) && forall folded :: Values(written, folded) == Values(headers, folded)
  {
    NarrowOfWiden(headers);
    hide AcceptedHeaders, Bag, Values, WrittenInOrder;
    var accepted;
    accepted, written := RequestHeaders(WidenAll(headers));
  }

  // ---- close_connection ---------------------------------------------------------------------------------

  /** `originalHeaders.Del("Connection")`: the keys are compared as they are spelled. */
  function DropConnection(grouped: map<ByteString, seq<ByteString>>): map<ByteString, seq<ByteString>> {
    grouped - {CONNECTION}
  }

  /** With close_connection on, the caller's connection header is gone exactly if there was none, or
      its first occurrence was spelled "Connection". */
  lemma ConnectionDropped(headers: seq<Header>, grouped: map<ByteString, seq<ByteString>>, order: seq<ByteString>, places: seq<nat>)
    requires GroupedAs(headers, grouped, order, places)
    ensures (forall name :: name in DropConnection(grouped) ==> Folded(name) != Folded(CONNECTION)) <==>
            (forall i :: 0 <= i < |headers| && IsFirst(headers, i) && Folded(headers[i].name) == Folded(CONNECTION) ==>
               headers[i].name == CONNECTION)
  {
    forall name | name in DropConnection(grouped) && Folded(name) == Folded(CONNECTION)
      ensures exists i :: 0 <= i < |headers| && IsFirst(headers, i) && Folded(headers[i].name) == Folded(CONNECTION) && headers[i].name != CONNECTION
    {
      var k :| 0 <= k < |order| && order[k] == name;
      ConnectionSpelling(headers, grouped, order, places, k);
      assert IsFirst(headers, places[k]);
    }
    forall i | 0 <= i < |headers| && IsFirst(headers, i) && Folded(headers[i].name) == Folded(CONNECTION) && headers[i].name != CONNECTION
      ensures exists name :: name in DropConnection(grouped) && Folded(name) == Folded(CONNECTION)
    {
      assert i in places;
      var k :| 0 <= k < |places| && places[k] == i;
      ConnectionSpelling(headers, grouped, order, places, k);
      assert order[k] in DropConnection(grouped);
    }
    hide *;
  }

  lemma ConnectionSpelling(headers: seq<Header>, grouped: map<ByteString, seq<ByteString>>, order: seq<ByteString>, places: seq<nat>, k: nat)
    requires GroupedAs(headers, grouped, order, places) && k < |order|
    requires Folded(order[k]) == Folded(CONNECTION) || Folded(headers[places[k]].name) == Folded(CONNECTION)
    ensures places[k] < |headers| && order[k] == headers[places[k]].name && Folded(order[k]) == Folded(CONNECTION)
  {
    assert IsFirst(headers, places[k]);
    ConnectionIsNotHost();
    SpellingFolds(headers[places[k]].name);
    hide Folded, Values;
  }

  const LOWER_CONNECTION: ByteString := [0x63, 0x6F, 0x6E, 0x6E, 0x65, 0x63, 0x74, 0x69, 0x6F, 0x6E]

  /** The input that shows it: a lone header `connection` stays. */
  lemma LowerCaseConnectionStays(value: ByteString)
    ensures var h := Header(LOWER_CONNECTION, value);
            var grouped := map[h.name := [value]];
            && GroupedAs([h], grouped, [h.name], [0]) && h.name in DropConnection(grouped)
            && Folded(h.name) == Folded(CONNECTION)
  {
    var h := Header(LOWER_CONNECTION, value);
    assert |Folded(h.name)| == 10 && Spelling(h.name) == h.name;
    assert Values([], Folded(h.name)) == [] && [] + [h] == [h];
    OneMoreValue([], h, Folded(h.name));
    assert FirstPlaces([h], [0]) by {
      assert IsFirst([h], 0) && [0][0] == 0;
    }
    assert h.name[0] != CONNECTION[0];
    assert [h.name][0] == h.name;
  }

  lemma ConnectionIsNotHost()
    ensures Folded(CONNECTION) != FOLDED_HOST
  {
    assert |Folded(CONNECTION)| == 10;
  }
}
