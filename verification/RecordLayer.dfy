/** `_unwrap_client_hello`: a raw handshake message, or the same message split over TLS records
    (section 5.1 of RFC 8446). */
module RecordLayer {
  import opened Bytes

  const MAX_INPUT := 65536
  const MAX_RECORD := 18432

  /** Type client_hello and a three-byte length that covers the rest. */
  predicate IsHandshake(message: ByteString) {
    |message| >= 4 && message[0] == 1 && Number(message[1..4]) == |message| - 4
  }

  /** The Python test, slices and all: `payload[:1] == b"\x01"` and the length comparison, on inputs
      that may be shorter than the header. */
  predicate HandshakeTest(message: ByteString) {
    var first := if |message| < 1 then message else message[..1];
    var length := if |message| < 1 then [] else if |message| < 4 then message[1..] else message[1..4];
    first == [1] && Number(length) == |message| - 4
  }

  /** The fragments from `offset` on, joined; the loop stops at the first byte that does not open a
      record with a complete header. */
  function Fragments(payload: ByteString, offset: nat): Outcome<(ByteString, nat)>
    requires offset <= |payload|
    decreases |payload| - offset
  {
    if offset + 5 <= |payload| && payload[offset] == 0x16 then
      var size := U16At(payload, offset + 3);
      var end := offset + 5 + size;
      if size > MAX_RECORD || end > |payload| then ValueError else
      var (rest, last) :- Fragments(payload, end);
      Ok((payload[offset + 5..end] + rest, last))
    else Ok(([], offset))
  }

  function Unwrap(payload: ByteString): Outcome<ByteString> {
    if |payload| < 6 || |payload| > MAX_INPUT then ValueError
    else if payload[0] == 0x16 then
      var (handshake, offset) :- Fragments(payload, 0);
      if offset != |payload| || !HandshakeTest(handshake) then ValueError else Ok(handshake)
    else if HandshakeTest(payload) then Ok(payload) else ValueError
  }

  method UnwrapClientHello(payload: ByteString) returns (r: Outcome<ByteString>)
    ensures r == Unwrap(payload)
  {
    if |payload| < 6 || |payload| > MAX_INPUT {
      return ValueError;
    }
    var message := payload;
    if payload[0] == 0x16 {
      var handshake: ByteString := [];
      var offset := 0;
      while offset + 5 <= |payload| && payload[offset] == 0x16
        invariant 0 <= offset <= |payload|
        invariant Fragments(payload, 0) == Append(handshake, Fragments(payload, offset))
      {
        var size := U16At(payload, offset + 3);
        var chunk := if offset + 5 + size <= |payload| then payload[offset + 5..offset + 5 + size] else payload[offset + 5..];
        if size > MAX_RECORD || |chunk| != size {
          return ValueError;
        }
        AppendTwice(handshake, chunk, Fragments(payload, offset + 5 + size));
        handshake := handshake + chunk;
        offset := offset + 5 + size;
      }
      if offset != |payload| {
        return ValueError;
      }
      message := handshake;
    }
    if !HandshakeTest(message) {
      return ValueError;
    }
    return Ok(message);
  }

  function Append(front: ByteString, rest: Outcome<(ByteString, nat)>): (r: Outcome<(ByteString, nat)>)
    ensures front == [] ==> r == rest
    ensures rest.Ok? && rest.value.0 == [] ==> r == Ok((front, rest.value.1))
  {
    if rest.Ok? then
      assert [] + rest.value.0 == rest.value.0;
      assert front + [] == front;
      Ok((front + rest.value.0, rest.value.1))
    else ValueError
  }

  lemma AppendTwice(front: ByteString, chunk: ByteString, rest: Outcome<(ByteString, nat)>)
    ensures Append(front, Append(chunk, rest)) == Append(front + chunk, rest)
  {
    if rest.Ok? {
      assert front + (chunk + rest.value.0) == front + chunk + rest.value.0;
    }
  }

  lemma HandshakeTestExact(message: ByteString)
    ensures HandshakeTest(message) <==> IsHandshake(message)
  {
    if 1 <= |message| {
      assert message[..1] == [message[0]];
    }
  }

  // ---- records ---------------------------------------------------------------------------------

  /** One record: its legacy version is free. */
  datatype Record = Record(version: U16, fragment: ByteString)

  function EncodeRecords(records: seq<Record>): ByteString {
    if |records| == 0 then []
    else [0x16] + U16Bytes(records[0].version) + U16Bytes(|records[0].fragment|) + records[0].fragment
         + EncodeRecords(records[1..])
  }

  function Joined(records: seq<Record>): ByteString {
    if |records| == 0 then [] else records[0].fragment + Joined(records[1..])
  }

  predicate Fits(records: seq<Record>) {
    forall i :: 0 <= i < |records| ==> |records[i].fragment| <= 18432
  }

  /** A record at `offset`, written and read. */
  lemma RecordAt(payload: ByteString, offset: nat, r: Record)
    requires offset + 5 + |r.fragment| <= |payload| && |r.fragment| <= 18432
    ensures payload[offset..offset + 5 + |r.fragment|] ==
            [0x16] + U16Bytes(r.version) + U16Bytes(|r.fragment|) + r.fragment <==>
            && payload[offset] == 0x16 && U16At(payload, offset + 1) == r.version
            && U16At(payload, offset + 3) == |r.fragment| && payload[offset + 5..offset + 5 + |r.fragment|] == r.fragment
  {
    var end := offset + 5 + |r.fragment|;
    var parts := [0x16] + U16Bytes(r.version) + U16Bytes(|r.fragment|) + r.fragment;
    U16AtIff(payload, offset + 1, r.version);
    U16AtIff(payload, offset + 3, |r.fragment|);
    assert payload[offset..end] ==
           [payload[offset]] + payload[offset + 1..offset + 3] + payload[offset + 3..offset + 5] + payload[offset + 5..end];
    assert parts[1..3] == U16Bytes(r.version) && parts[3..5] == U16Bytes(|r.fragment|) && parts[5..] == r.fragment;
    if payload[offset..end] == parts {
      assert payload[offset] == parts[0] && payload[offset + 1..offset + 3] == parts[1..3];
      assert payload[offset + 3..offset + 5] == parts[3..5] && payload[offset + 5..end] == parts[5..];
    }
  }

  lemma {:induction false} FragmentsWritten(payload: ByteString, offset: nat, records: seq<Record>)
    requires offset <= |payload| && payload[offset..] == EncodeRecords(records) && Fits(records)
    ensures Fragments(payload, offset) == Ok((Joined(records), |payload|))
    decreases |records|
  {
    hide U16At, U16Bytes;
    if |records| > 0 {
      var r := records[0];
      var bytes := [0x16] + U16Bytes(r.version) + U16Bytes(|r.fragment|) + r.fragment;
      HeaderSize(r);
      SplitSuffix(payload, offset, bytes, EncodeRecords(records[1..]));
      RecordAt(payload, offset, r);
      FragmentsWritten(payload, offset + 5 + |r.fragment|, records[1..]);
    }
  }

  lemma HeaderSize(r: Record)
    ensures |[0x16] + U16Bytes(r.version) + U16Bytes(|r.fragment|) + r.fragment| == 5 + |r.fragment|
  {
  }

  lemma {:induction false} FragmentsRead(payload: ByteString, offset: nat) returns (records: seq<Record>)
    requires offset <= |payload| && Fragments(payload, offset).Ok? && Fragments(payload, offset).value.1 == |payload|
    ensures payload[offset..] == EncodeRecords(records) && Fits(records)
    ensures Joined(records) == Fragments(payload, offset).value.0
    decreases |payload| - offset
  {
    hide U16At, U16Bytes;
    records := [];
    if offset < |payload| {
      var end := offset + 5 + U16At(payload, offset + 3);
      var r := Record(U16At(payload, offset + 1), payload[offset + 5..end]);
      RecordAt(payload, offset, r);
      var rest := FragmentsRead(payload, end);
      records := [r] + rest;
      assert records[1..] == rest;
      JoinSuffix(payload, offset, end);
    }
  }

  lemma FirstByte(records: seq<Record>)
    requires records != []
    ensures EncodeRecords(records) != [] && EncodeRecords(records)[0] == 0x16
  {
  }

  /** Any fragmentation of a handshake unwraps to that handshake, whatever the record versions and
      sizes, as long as the total stays within the input limit. */
  lemma FragmentationInvariance(records: seq<Record>)
    requires records != [] && Fits(records) && 6 <= |EncodeRecords(records)| <= 65536
    ensures Unwrap(EncodeRecords(records)) == if IsHandshake(Joined(records)) then Ok(Joined(records)) else ValueError
  {
    var payload := EncodeRecords(records);
    FirstByte(records);
    assert payload[0..] == payload;
    FragmentsWritten(payload, 0, records);
    HandshakeTestExact(Joined(records));
  }

  /** What unwraps is a raw handshake or a record sequence and never both; the result is the input
      itself or the joined fragments, with no byte skipped or read twice. */
  lemma UnwrapExact(payload: ByteString) returns (records: seq<Record>)
    requires Unwrap(payload).Ok?
    ensures IsHandshake(Unwrap(payload).value) && 6 <= |payload| <= 65536
    ensures payload[0] == 0x16 <==> records != []
    ensures records == [] ==> Unwrap(payload).value == payload && payload[0] == 1
    ensures records != [] ==> Fits(records) && EncodeRecords(records) == payload && Joined(records) == Unwrap(payload).value
  {
    HandshakeTestExact(Unwrap(payload).value);
    records := [];
    if payload[0] == 0x16 {
      records := FragmentsRead(payload, 0);
      assert payload[0..] == payload;
    }
  }

  /** A raw handshake unwraps to itself. */
  lemma RawHandshake(message: ByteString)
    requires 6 <= |message| <= 65536
    ensures IsHandshake(message) ==> Unwrap(message) == Ok(message)
  {
    HandshakeTestExact(message);
  }
}
