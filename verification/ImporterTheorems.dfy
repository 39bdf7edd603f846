/** What `tls_spec_from_client_hello` does with its input bytes, end to end. */
module ImporterTheorems {
  import opened Bytes
  import opened TlsDecl
  import opened HelloImport
  import opened HelloCodec
  import opened RecordLayer
  import opened WireMeaning

  /** The importer on a byte string: `_unwrap_client_hello`, then the message. */
  function Import(payload: ByteString): Outcome<TlsSpec> {
    var hello :- Unwrap(payload);
    ImportHello(hello)
  }

  method TlsSpecFromClientHello(payload: ByteString) returns (r: Outcome<TlsSpec>)
    ensures r == Import(payload)
    ensures r.Ok? <==> exists h: Hello :: WellFormed(h) && Represents(payload, h)
    ensures forall h: Hello :: WellFormed(h) && Represents(payload, h) ==> r == Ok(Project(h)) && DeclaresHello(r.value, h)
  {
    hide WellFormed, Represents, Project, DeclaresHello;
    ImportIsInverse(payload);
    forall h: Hello | WellFormed(h) && Represents(payload, h)
      ensures DeclaresHello(Project(h), h)
    {
      ProjectionDeclares(h);
    }
    var hello :- UnwrapClientHello(payload);
    r := ImportHandshake(hello);
  }

  /** `payload` carries the encoding of `h`, raw or in records, within the size limits. */
  ghost predicate Represents(payload: ByteString, h: Hello) {
    && 6 <= |payload| <= 65536
    && (payload == Encode(h) || exists records :: RepresentsIn(payload, h, records))
  }

  ghost predicate RepresentsIn(payload: ByteString, h: Hello, records: seq<Record>) {
    records != [] && Fits(records) && payload == EncodeRecords(records) && Joined(records) == Encode(h)
  }

  lemma EncodedHandshake(h: Hello)
    requires WellFormed(h)
    ensures IsHandshake(Encode(h)) && |Encode(h)| >= 38 && Encode(h)[0] == 1
  {
    EncodeFramed(h);
    WirePowers();
    var n := |EncodeFields(h)|;
    assert n < 0x100_0000;
    NumberOfBigEndian(n, 3);
    assert Encode(h)[1..4] == BigEndian(n, 3);
  }

  /** Round trip: a well-formed hello imports to its projection, raw or in any fragmentation. */
  lemma RoundTrip(payload: ByteString, h: Hello)
    requires WellFormed(h) && Represents(payload, h)
    ensures Import(payload) == Ok(Project(h))
  {
    hide WellFormed, Encode, Project, ImportHello, Unwrap;
    EncodedHandshake(h);
    HelloWritten(h);
    if payload == Encode(h) {
      RawHandshake(payload);
    } else {
      var records :| RepresentsIn(payload, h, records);
      FragmentationInvariance(records);
    }
  }

  /** Exactness: an accepted input is the representation of some well-formed hello with exactly the
      imported projection. */
  lemma Exactness(payload: ByteString) returns (h: Hello)
    requires Import(payload).Ok?
    ensures WellFormed(h) && Represents(payload, h) && Import(payload) == Ok(Project(h))
  {
    hide WellFormed, Encode, Project, ImportHello, Unwrap;
    var records := UnwrapExact(payload);
    var hello := Unwrap(payload).value;
    LongEnough(hello);
    h := HelloRead(hello);
    if records != [] {
      assert RepresentsIn(payload, h, records);
    }
  }

  lemma LongEnough(hello: ByteString)
    requires ImportHello(hello).Ok?
    ensures |hello| >= 38
  {
  }

  /** Both directions at once. */
  lemma ImportIsInverse(payload: ByteString)
    ensures Import(payload).Ok? <==> exists h: Hello :: WellFormed(h) && Represents(payload, h)
    ensures forall h: Hello :: WellFormed(h) && Represents(payload, h) ==> Import(payload) == Ok(Project(h))
  {
    hide Import, WellFormed, Represents;
    forall h: Hello | WellFormed(h) && Represents(payload, h)
      ensures Import(payload) == Ok(Project(h))
    {
      RoundTrip(payload, h);
    }
    if Import(payload).Ok? {
      var h := Exactness(payload);
    }
  }

  /** The declaration says what is on the wire, in the numbers of the registries: a name resolved with
      them gives the number of its place back. */
  lemma ImportDeclares(payload: ByteString, h: Hello)
    requires WellFormed(h) && Represents(payload, h)
    ensures Import(payload).Ok? && DeclaresHello(Import(payload).value, h)
  {
    hide *;
    RoundTrip(payload, h);
    ProjectionDeclares(h);
  }

  /** Random, session id, ignored bodies, key bytes, GREASE choices and ECH key and payload bytes do
      not influence the result. */
  lemma DynamicFieldsDropped(p: ByteString, q: ByteString, h: Hello, g: Hello)
    requires WellFormed(h) && WellFormed(g) && Represents(p, h) && Represents(q, g)
    requires Twins(h, g)
    ensures Import(p) == Import(q)
  {
    hide WellFormed, Represents, Import, Project, Twins;
    RoundTrip(p, h);
    RoundTrip(q, g);
    TwinsProject(h, g);
  }

  /** Two representations import to the same declaration if and only if their hellos differ in the
      dynamic fields only: the importer drops nothing else. */
  lemma OnlyDynamicFieldsDropped(p: ByteString, q: ByteString, h: Hello, g: Hello)
    requires WellFormed(h) && WellFormed(g) && Represents(p, h) && Represents(q, g)
    ensures Import(p) == Import(q) <==> Twins(h, g)
  {
    hide WellFormed, Represents, Import, Project, Twins;
    RoundTrip(p, h);
    RoundTrip(q, g);
    ProjectionForgets(h, g);
  }
}
