/** Byte strings, big-endian numbers and the length-prefixed vectors of section 3.4 of RFC 8446. */
module Bytes {

  type Byte = b: int | 0 <= b < 0x100

  type U16 = n: int | 0 <= n < 0x1_0000

  type ByteString = seq<Byte>

  /** A value, or the ValueError the importer raises for every malformed input. */
  datatype Outcome<+T> = Ok(value: T) | ValueError {
    predicate IsFailure() {
      ValueError?
    }

    function PropagateFailure<U>(): Outcome<U>
      requires ValueError?
    {
      ValueError
    }

    function Extract(): T
      requires Ok?
    {
      value
    }
  }

  /** Python's `int.from_bytes(s, "big")`. */
  function Number(s: ByteString): nat {
    if |s| == 0 then 0 else Number(s[..|s| - 1]) * 0x100 + s[|s| - 1]
  }

  /** The low `width` bytes of `n`, most significant first. */
  function BigEndian(n: nat, width: nat): (s: ByteString)
    ensures |s| == width
  {
    if width == 0 then [] else BigEndian(n / 0x100, width - 1) + [n % 0x100]
  }

  function Power256(width: nat): (p: nat)
    ensures p > 0
  {
    if width == 0 then 1 else 0x100 * Power256(width - 1)
  }

  lemma {:induction false} NumberOfBigEndian(n: nat, width: nat)
    requires n < Power256(width)
    ensures Number(BigEndian(n, width)) == n
  {
    if width > 0 {
      NumberOfBigEndian(n / 0x100, width - 1);
      assert BigEndian(n, width)[..width - 1] == BigEndian(n / 0x100, width - 1);
    }
  }

  lemma {:induction false} BigEndianOfNumber(s: ByteString)
    ensures Number(s) < Power256(|s|)
    ensures BigEndian(Number(s), |s|) == s
  {
    if |s| > 0 {
      BigEndianOfNumber(s[..|s| - 1]);
      assert Number(s) / 0x100 == Number(s[..|s| - 1]);
      assert s == s[..|s| - 1] + [s[|s| - 1]];
    }
  }

  /** The widths that occur on the wire. */
  lemma WirePowers()
    ensures Power256(1) == 0x100 && Power256(2) == 0x1_0000 && Power256(3) == 0x100_0000
  {
    assert Power256(0) == 1;
    assert Power256(1) == 0x100;
  }

  /** `body` behind its length in `width` bytes. */
  function Vector(body: ByteString, width: nat): (s: ByteString)
    ensures |s| == width + |body|
  {
    BigEndian(|body|, width) + body
  }

  /** `_take_vector`: the vector that starts at `offset`, and the offset behind it. */
  function TakeVector(data: ByteString, offset: nat, width: nat): Outcome<(ByteString, nat)> {
    if offset + width > |data| then ValueError else
    var size := Number(data[offset..offset + width]);
    var start := offset + width;
    var end := start + size;
    if end > |data| then ValueError else Ok((data[start..end], end))
  }

  lemma TakeVectorReads(data: ByteString, offset: nat, width: nat, body: ByteString, end: nat)
    requires TakeVector(data, offset, width) == Ok((body, end))
    ensures offset + width <= end <= |data| && end == offset + width + |body|
    ensures |body| < Power256(width) && data[offset..end] == Vector(body, width)
  {
    var prefix := data[offset..offset + width];
    BigEndianOfNumber(prefix);
    assert |body| == Number(prefix);
    assert data[offset..end] == prefix + body;
  }

  lemma TakeVectorWritten(data: ByteString, offset: nat, width: nat, body: ByteString)
    requires offset + width + |body| <= |data| && |body| < Power256(width)
    requires data[offset..offset + width + |body|] == Vector(body, width)
    ensures TakeVector(data, offset, width) == Ok((body, offset + width + |body|))
  {
    var end := offset + width + |body|;
    NumberOfBigEndian(|body|, width);
    assert data[offset..offset + width] == data[offset..end][..width] == BigEndian(|body|, width);
    assert data[offset + width..end] == data[offset..end][width..] == body;
  }

  /** Reading and writing a vector are inverse: `TakeVector` answers `(body, end)` exactly when
      the bytes between `offset` and `end` are the encoding of `body`. */
  lemma TakeVectorIff(data: ByteString, offset: nat, width: nat, body: ByteString, end: nat)
    ensures TakeVector(data, offset, width) == Ok((body, end)) <==>
            offset <= end <= |data| && |body| < Power256(width) && data[offset..end] == Vector(body, width)
  {
    if TakeVector(data, offset, width) == Ok((body, end)) {
      TakeVectorReads(data, offset, width, body, end);
    } else if offset <= end <= |data| && |body| < Power256(width) && data[offset..end] == Vector(body, width) {
      TakeVectorWritten(data, offset, width, body);
    }
  }

  /** A vector that fills its container: `offset != len(data)` does not hold after taking it. */
  lemma TakeWholeVector(data: ByteString, width: nat, body: ByteString)
    ensures TakeVector(data, 0, width) == Ok((body, |data|)) <==>
            |body| < Power256(width) && data == Vector(body, width)
  {
    TakeVectorIff(data, 0, width, body, |data|);
    assert data[0..|data|] == data;
  }

  /** `[int.from_bytes(body[i:i + 2], "big") for i in range(0, len(body), 2)]`; the last slice of an
      odd body is a single byte. */
  function Pairs(body: ByteString): (ids: seq<U16>)
    ensures |ids| == (|body| + 1) / 2
  {
    if |body| == 0 then []
    else if |body| == 1 then [body[0]]
    else [body[0] as int * 0x100 + body[1] as int] + Pairs(body[2..])
  }

  function EncodePairs(ids: seq<U16>): (body: ByteString)
    ensures |body| == 2 * |ids|
  {
    if |ids| == 0 then [] else [ids[0] / 0x100, ids[0] % 0x100] + EncodePairs(ids[1..])
  }

  lemma {:induction false} PairsOfEncodePairs(ids: seq<U16>)
    ensures Pairs(EncodePairs(ids)) == ids
  {
    if |ids| > 0 {
      PairsOfEncodePairs(ids[1..]);
      assert EncodePairs(ids)[2..] == EncodePairs(ids[1..]);
    }
  }

  lemma {:induction false} EncodePairsOfPairs(body: ByteString)
    requires |body| % 2 == 0
    ensures EncodePairs(Pairs(body)) == body
  {
    if |body| > 0 {
      EncodePairsOfPairs(body[2..]);
      assert Pairs(body)[1..] == Pairs(body[2..]);
    }
  }

  /** `int.from_bytes(data[offset:offset + 2], "big")`. */
  function U16At(data: ByteString, offset: nat): U16
    requires offset + 2 <= |data|
  {
    data[offset] as int * 0x100 + data[offset + 1] as int
  }

  /** Two bytes as a number. */
  lemma NumberOfTwo(s: ByteString)
    requires |s| == 2
    ensures Number(s) == s[0] as int * 0x100 + s[1] as int && Number(s) < 0x1_0000
    ensures BigEndian(Number(s), 2) == s
  {
    BigEndianOfNumber(s);
    WirePowers();
    assert s[..1][..0] == [] && s[..1][0] == s[0];
    assert Number(s[..1]) == s[0];
  }

  /** The same two bytes without recursion. */
  function U16Bytes(n: nat): ByteString {
    [n / 0x100 % 0x100, n % 0x100]
  }

  lemma U16AtIff(data: ByteString, offset: nat, n: U16)
    requires offset + 2 <= |data|
    ensures data[offset..offset + 2] == U16Bytes(n) <==> U16At(data, offset) == n
  {
    assert data[offset..offset + 2] == [data[offset], data[offset + 1]];
  }

  /** The two halves of a suffix. */
  lemma SplitSuffix(data: ByteString, cursor: nat, head: ByteString, tail: ByteString)
    requires cursor <= |data| && data[cursor..] == head + tail
    ensures cursor + |head| <= |data|
    ensures data[cursor..cursor + |head|] == head && data[cursor + |head|..] == tail
  {
    assert (head + tail)[..|head|] == head && (head + tail)[|head|..] == tail;
    assert data[cursor..cursor + |head|] == data[cursor..][..|head|];
    assert data[cursor + |head|..] == data[cursor..][|head|..];
  }

  lemma JoinSuffix(data: ByteString, cursor: nat, middle: nat)
    requires cursor <= middle <= |data|
    ensures data[cursor..] == data[cursor..middle] + data[middle..]
  {
  }

  /** The bytes of an ASCII text. */
  function Letters(text: string): (r: ByteString)
    requires forall k :: 0 <= k < |text| ==> text[k] < 128 as char
    ensures |r| == |text| && forall k :: 0 <= k < |text| ==> r[k] == text[k] as int
  {
    seq(|text|, k requires 0 <= k < |text| && text[k] < 128 as char => text[k] as int)
  }
}
