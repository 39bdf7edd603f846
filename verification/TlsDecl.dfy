/** The tls_spec declaration that the importer writes and the Go service reads. */
module TlsDecl {
  import opened Options

  /** Extension names of the declaration; every other text is `Unknown`. */
  datatype ExtName =
    | GREASE | ServerName | StatusRequest | SupportedGroups | EcPointFormats | SignatureAlgorithms | Alpn | Sct
    | ExtendedMasterSecret | CompressCertificate | RecordSizeLimit | DelegatedCredentials | SessionTicket
    | SupportedVersions | PskKeyExchangeModes | KeyShare | ApplicationSettings | ApplicationSettingsNew
    | EncryptedClientHello | RenegotiationInfo | Unknown(text: string)

  datatype ShareDecl = ShareDecl(group: string, keyExchange: Option<seq<int>>)

  /** One object of the `extensions` array: a bare name, a name with its one list, or one of the
      three shapes with fields of their own. */
  datatype TlsExt =
    | Plain(plain: ExtName)
    | Listed(listed: ExtName, names: seq<string>)
    | Limited(limit: int)
    | Shared(shares: seq<ShareDecl>)
    | Ech(cipherSuites: Option<seq<(int, int)>>, configIds: Option<seq<int>>, payloadLens: Option<seq<int>>)
  {
    function Name(): ExtName {
      match this
      case Plain(name) => name
      case Listed(name, _) => name
      case Limited(_) => RecordSizeLimit
      case Shared(_) => KeyShare
      case Ech(_, _, _) => EncryptedClientHello
    }
  }

  datatype TlsSpec = TlsSpec(
    cipherSuites: seq<string>, compressionMethods: seq<string>, extensions: seq<TlsExt>,
    minVers: int, maxVers: int, shuffleExtensions: bool)
}
