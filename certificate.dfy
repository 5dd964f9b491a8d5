/**
  The certificate generator (internal/certificate/generator.go): the
  configuration records, the CA and leaf templates, the two issuance
  operations with their fixed order of fallible steps, and the unified PEM
  view of a bundle.
 */
module Certificate {
  import opened Results
  import opened GoStrings
  import opened X509

  // ---------------------------------------------------------------------
  // Configuration records and the bundle
  // ---------------------------------------------------------------------

  /** Settings for a self-signed CA. */
  datatype CAConfig = CAConfig(
    organization: string,
    commonName: string,
    country: string,
    locality: string,
    expiryDays: Int64)

  /** Settings for a leaf (client or server) certificate. */
  datatype CertConfig = CertConfig(
    organization: string,
    commonName: string,
    country: string,
    locality: string,
    expiryDays: Int64,
    isClient: bool,
    dnsNames: seq<string>,
    ipAddresses: seq<string>)

  /** The PEM-encoded certificate and private key of one issuance. */
  datatype CertBundle = CertBundle(certPEM: Bytes, keyPEM: Bytes) {

    /** The certificate PEM immediately followed by the key PEM: no
        separator is inserted and neither part is altered. */
    function UnifiedPEM(): (unified: Bytes)
      ensures |unified| == |certPEM| + |keyPEM|
      ensures unified[..|certPEM|] == certPEM
      ensures unified[|certPEM|..] == keyPEM
    {
      certPEM + keyPEM
    }
  }

  /** PEM type of every certificate (RFC 7468, section 5). */
  const CertificateType: string := "CERTIFICATE"

  /** PEM type of a SEC 1 / RFC 5915 ECPrivateKey. */
  const ECPrivateKeyType: string := "EC PRIVATE KEY"

  /** Serial numbers are drawn from [0, 2^128). */
  const SerialLimit: nat := 0x1_0000_0000_0000_0000_0000_0000_0000_0000

  // ---------------------------------------------------------------------
  // Validity period
  // ---------------------------------------------------------------------

  /** `time.Duration(days) * 24 * time.Hour`: two int64 multiplications,
      each wrapping on overflow. */
  function ExpiryDuration(days: Int64): (duration: Int64) {
    WrapInt64(WrapInt64(days * 24) * Hour)
  }

  /** The largest number of days whose duration in nanoseconds fits int64. */
  const MaxExactExpiryDays: int := 106751

  /** Within about 292 years either way the duration is exact: `days` whole
      days, zero and negative counts included. */
  lemma ExpiryDurationExact(days: Int64)
    requires -MaxExactExpiryDays <= days <= MaxExactExpiryDays
    ensures ExpiryDuration(days) == days * 24 * Hour
  {
    assert MinInt64 <= days * 24 <= MaxInt64;
    assert MinInt64 <= days * 24 * Hour <= MaxInt64;
  }

  /** One day more and the product wraps to a negative duration, so the
      certificate would expire before it becomes valid; about twice as many
      days and it wraps around once more, to about 25 minutes. */
  lemma ExpiryDurationWraps()
    ensures ExpiryDuration(MaxExactExpiryDays + 1) < 0
    ensures ExpiryDuration(-MaxExactExpiryDays - 1) > 0
    ensures ExpiryDuration(2 * MaxExactExpiryDays + 2) == 1_526_290_448_384
  {
  }

  /** From 106752 to 213503 days the duration is the true one less 2^64
      nanoseconds, which is negative: NotAfter falls before NotBefore. */
  lemma ExpiryDurationNegativeBand(days: Int64)
    requires MaxExactExpiryDays < days <= 2 * MaxExactExpiryDays + 1
    ensures ExpiryDuration(days) == days * 24 * Hour - 0x1_0000_0000_0000_0000
    ensures ExpiryDuration(days) < 0
  {
    var x := days * 24 * Hour;
    assert MaxInt64 < x < 0x1_0000_0000_0000_0000;
    assert 0 <= x - MinInt64 - 0x1_0000_0000_0000_0000 < 0x1_0000_0000_0000_0000;
  }

  /** Mirrored: from -213503 to -106752 days the duration is the true one
      plus 2^64 nanoseconds, which is positive. */
  lemma ExpiryDurationPositiveBand(days: Int64)
    requires -2 * MaxExactExpiryDays - 1 <= days < -MaxExactExpiryDays
    ensures ExpiryDuration(days) == days * 24 * Hour + 0x1_0000_0000_0000_0000
    ensures ExpiryDuration(days) > 0
  {
    var x := days * 24 * Hour;
    assert -0x1_0000_0000_0000_0000 < x < MinInt64;
    assert 0 <= x - MinInt64 + 0x1_0000_0000_0000_0000 < 0x1_0000_0000_0000_0000;
  }

  // ---------------------------------------------------------------------
  // Templates (RFC 5280, sections 4.1.2.2, 4.1.2.5, 4.2.1.3, 4.2.1.6,
  // 4.2.1.9 and 4.2.1.12)
  // ---------------------------------------------------------------------

  /** The subject name: each of organization, country and locality as a
      one-element list. */
  function Subject(organization: string, commonName: string, country: string, locality: string): Name {
    Name([organization], commonName, [country], [locality])
  }

  function CATemplate(config: CAConfig, serial: nat, now: Time): (template: Template) {
    Template(
      serialNumber := serial,
      subject := Subject(config.organization, config.commonName, config.country, config.locality),
      notBefore := now,
      notAfter := now + ExpiryDuration(config.expiryDays),
      keyUsage := DigitalSignature.Bit() | CertSign.Bit(),
      extKeyUsage := [ServerAuth, ClientAuth],
      basicConstraintsValid := true,
      isCA := true,
      maxPathLen := 1,
      dnsNames := [],
      ipAddresses := [])
  }

  /** The leaf template: built as a literal, then given its extended key
      usage and, for a server with DNS names, its SAN DNS entries. The IP
      addresses of the configuration are never attached. */
  function LeafTemplate(config: CertConfig, serial: nat, now: Time): (template: Template) {
    var literal := Template(
      serialNumber := serial,
      subject := Subject(config.organization, config.commonName, config.country, config.locality),
      notBefore := now,
      notAfter := now + ExpiryDuration(config.expiryDays),
      keyUsage := DigitalSignature.Bit() | KeyEncipherment.Bit(),
      extKeyUsage := [],
      basicConstraintsValid := true,
      isCA := false,
      maxPathLen := 0,
      dnsNames := [],
      ipAddresses := []);
    if config.isClient then
      literal.(extKeyUsage := [ClientAuth])
    else
      var server := literal.(extKeyUsage := [ServerAuth]);
      if |config.dnsNames| > 0 then server.(dnsNames := config.dnsNames) else server
  }

  lemma CAKeyUsages()
    ensures KeyUsages(DigitalSignature.Bit() | CertSign.Bit()) == {DigitalSignature, CertSign}
  {
    var s := KeyUsages(DigitalSignature.Bit() | CertSign.Bit());
    forall u | u in AllKeyUsages ensures u in s <==> u in {DigitalSignature, CertSign} {
    }
  }

  lemma LeafKeyUsages()
    ensures KeyUsages(DigitalSignature.Bit() | KeyEncipherment.Bit()) == {DigitalSignature, KeyEncipherment}
  {
    var s := KeyUsages(DigitalSignature.Bit() | KeyEncipherment.Bit());
    forall u | u in AllKeyUsages ensures u in s <==> u in {DigitalSignature, KeyEncipherment} {
    }
  }

  /** The CA profile: a CA with path length 1, allowed to sign certificates,
      for both TLS purposes, with no subject alternative names. */
  lemma CATemplateProfile(config: CAConfig, serial: nat, now: Time)
    ensures var t := CATemplate(config, serial, now);
      && t.basicConstraintsValid && t.isCA && t.maxPathLen == 1
      && KeyUsages(t.keyUsage) == {DigitalSignature, CertSign}
      && t.extKeyUsage == [ServerAuth, ClientAuth]
      && t.dnsNames == [] && t.ipAddresses == []
  {
    CAKeyUsages();
  }

  /** The leaf profile: never a CA, usable for signatures and key
      encipherment, client authentication for a client and server
      authentication (with the configured DNS names, verbatim and in order)
      for a server; IP addresses are never attached. */
  lemma LeafTemplateProfile(config: CertConfig, serial: nat, now: Time)
    ensures var t := LeafTemplate(config, serial, now);
      && t.basicConstraintsValid && !t.isCA
      && KeyUsages(t.keyUsage) == {DigitalSignature, KeyEncipherment}
      && t.extKeyUsage == (if config.isClient then [ClientAuth] else [ServerAuth])
      && t.dnsNames == (if config.isClient then [] else config.dnsNames)
      && t.ipAddresses == []
  {
    LeafKeyUsages();
  }

  /** The CA template carries the configured subject, the given serial, and
      a validity period from `now` to `now` plus `expiryDays` whole days (an
      instant for zero days) as long as the day count does not overflow. */
  lemma CATemplateSubjectAndValidity(config: CAConfig, serial: nat, now: Time)
    ensures var t := CATemplate(config, serial, now);
      && t.subject == Name([config.organization], config.commonName, [config.country], [config.locality])
      && t.serialNumber == serial && t.notBefore == now
      && (-MaxExactExpiryDays <= config.expiryDays <= MaxExactExpiryDays ==>
            t.notAfter == now + config.expiryDays * 24 * Hour)
  {
    if -MaxExactExpiryDays <= config.expiryDays <= MaxExactExpiryDays {
      ExpiryDurationExact(config.expiryDays);
    }
  }

  /** The leaf template carries the same subject and validity period. */
  lemma LeafTemplateSubjectAndValidity(config: CertConfig, serial: nat, now: Time)
    ensures var t := LeafTemplate(config, serial, now);
      && t.subject == Name([config.organization], config.commonName, [config.country], [config.locality])
      && t.serialNumber == serial && t.notBefore == now
      && (-MaxExactExpiryDays <= config.expiryDays <= MaxExactExpiryDays ==>
            t.notAfter == now + config.expiryDays * 24 * Hour)
  {
    if -MaxExactExpiryDays <= config.expiryDays <= MaxExactExpiryDays {
      ExpiryDurationExact(config.expiryDays);
    }
  }

  // ---------------------------------------------------------------------
  // Issuance: steps, errors and outcomes
  // ---------------------------------------------------------------------

  /** What the random source yields when the generator draws from it: the
      outcome of `ecdsa.GenerateKey` and of `rand.Int(rand.Reader, 2^128)`. */
  datatype Entropy = Entropy(key: Result<PrivateKey, string>, serial: Result<nat, string>)

  /** `rand.Int` with bound 2^128 returns a value in [0, 2^128). */
  predicate SerialInRange(rng: Entropy) {
    rng.serial.Ok? ==> rng.serial.value < SerialLimit
  }

  /** The calls an issuance makes, in the order the source makes them. */
  datatype Step =
    | DecodeCACert | ParseCACert | DecodeCAKey | ParseCAKey
    | GenerateKey | GenerateSerial | CreateCertificate | EncodeCertificate
    | MarshalKey | EncodeKey

  const CASteps: seq<Step> :=
    [GenerateKey, GenerateSerial, CreateCertificate, EncodeCertificate, MarshalKey, EncodeKey]

  const LeafSteps: seq<Step> := [DecodeCACert, ParseCACert, DecodeCAKey, ParseCAKey] + CASteps

  /** Why an issuance failed; `cause` is the wrapped library error text. */
  datatype IssueError =
    | CACertDecodeError
    | CACertParseError(cause: string)
    | CAKeyDecodeError
    | CAKeyParseError(cause: string)
    | KeyGenerationError(cause: string)
    | SerialGenerationError(cause: string)
    | CreateCertificateError(cause: string)
    | MarshalKeyError(cause: string)
  {
    /** The CA material handed to a leaf issuance was unusable. */
    predicate IsInvalidCAInput() {
      CACertDecodeError? || CACertParseError? || CAKeyDecodeError? || CAKeyParseError?
    }

    /** The step whose failure this error reports. */
    function FailedStep(): Step {
      match this
      case CACertDecodeError => DecodeCACert
      case CACertParseError(_) => ParseCACert
      case CAKeyDecodeError => DecodeCAKey
      case CAKeyParseError(_) => ParseCAKey
      case KeyGenerationError(_) => GenerateKey
      case SerialGenerationError(_) => GenerateSerial
      case CreateCertificateError(_) => CreateCertificate
      case MarshalKeyError(_) => MarshalKey
    }

    /** The text of the error the source returns. */
    function Message(): string {
      match this
      case CACertDecodeError => "failed to decode CA certificate PEM"
      case CACertParseError(c) => "failed to parse CA certificate: " + c
      case CAKeyDecodeError => "failed to decode CA private key PEM"
      case CAKeyParseError(c) => "failed to parse CA private key: " + c
      case KeyGenerationError(c) => "failed to generate private key: " + c
      case SerialGenerationError(c) => "failed to generate serial number: " + c
      case CreateCertificateError(c) => "failed to create certificate: " + c
      case MarshalKeyError(c) => "failed to marshal private key: " + c
    }
  }

  /** The bundle for a signed certificate and a marshalled key: a
      CERTIFICATE block and an EC PRIVATE KEY block. */
  function PemBundle(lib: Library, certDER: Bytes, keyDER: Bytes): (bundle: CertBundle) {
    CertBundle(lib.pemEncode(PemBlock(CertificateType, certDER)),
               lib.pemEncode(PemBlock(ECPrivateKeyType, keyDER)))
  }

  /** The outcome of `GenerateCA`. */
  function CAOutcome(config: CAConfig, lib: Library, rng: Entropy, now: Time): (outcome: Result<CertBundle, IssueError>) {
    if rng.key.Err? then Err(KeyGenerationError(rng.key.error))
    else if rng.serial.Err? then Err(SerialGenerationError(rng.serial.error))
    else
      var key := rng.key.value;
      var template := CATemplate(config, rng.serial.value, now);
      var certDER := lib.createCertificate(template, TemplateParent(template), lib.publicKey(key), key);
      if certDER.Err? then Err(CreateCertificateError(certDER.error))
      else
        var keyDER := lib.marshalECPrivateKey(key);
        if keyDER.Err? then Err(MarshalKeyError(keyDER.error))
        else Ok(PemBundle(lib, certDER.value, keyDER.value))
  }

  /** A CA certificate and key recovered from PEM. */
  datatype CAMaterial = CAMaterial(cert: Certificate, key: PrivateKey)

  /** Decoding and parsing of the CA certificate, then of the CA key; the
      first check that fails names the error. The type of each PEM block
      and any bytes after it are not looked at. */
  function ParseCA(lib: Library, caCertPEM: Bytes, caKeyPEM: Bytes): (r: Result<CAMaterial, IssueError>)
    ensures r.Err? ==> r.error.IsInvalidCAInput()
    ensures r.Ok? <==>
      && lib.pemDecode(caCertPEM).Some?
      && lib.parseCertificate(lib.pemDecode(caCertPEM).value.block.bytes).Ok?
      && lib.pemDecode(caKeyPEM).Some?
      && lib.parseECPrivateKey(lib.pemDecode(caKeyPEM).value.block.bytes).Ok?
    ensures lib.pemDecode(caCertPEM).None? ==> r == Err(CACertDecodeError)
    ensures lib.pemDecode(caCertPEM).Some? ==>
      var cert := lib.parseCertificate(lib.pemDecode(caCertPEM).value.block.bytes);
      && (cert.Err? ==> r == Err(CACertParseError(cert.error)))
      && (cert.Ok? && lib.pemDecode(caKeyPEM).None? ==> r == Err(CAKeyDecodeError))
      && (cert.Ok? && lib.pemDecode(caKeyPEM).Some? ==>
            var key := lib.parseECPrivateKey(lib.pemDecode(caKeyPEM).value.block.bytes);
            && (key.Err? ==> r == Err(CAKeyParseError(key.error)))
            && (key.Ok? ==> r == Ok(CAMaterial(cert.value, key.value))))
  {
    match lib.pemDecode(caCertPEM)
    case None => Err(CACertDecodeError)
    case Some(certBlock) =>
      match lib.parseCertificate(certBlock.block.bytes)
      case Err(e) => Err(CACertParseError(e))
      case Ok(cert) =>
        match lib.pemDecode(caKeyPEM)
        case None => Err(CAKeyDecodeError)
        case Some(keyBlock) =>
          match lib.parseECPrivateKey(keyBlock.block.bytes)
          case Err(e) => Err(CAKeyParseError(e))
          case Ok(key) => Ok(CAMaterial(cert, key))
  }

  /** The outcome of `GenerateCert`. */
  function LeafOutcome(config: CertConfig, caCertPEM: Bytes, caKeyPEM: Bytes, lib: Library, rng: Entropy, now: Time)
    : (outcome: Result<CertBundle, IssueError>)
  {
    var ca := ParseCA(lib, caCertPEM, caKeyPEM);
    if ca.Err? then Err(ca.error)
    else if rng.key.Err? then Err(KeyGenerationError(rng.key.error))
    else if rng.serial.Err? then Err(SerialGenerationError(rng.serial.error))
    else
      var key := rng.key.value;
      var template := LeafTemplate(config, rng.serial.value, now);
      var certDER := lib.createCertificate(template, CertParent(ca.value.cert), lib.publicKey(key), ca.value.key);
      if certDER.Err? then Err(CreateCertificateError(certDER.error))
      else
        var keyDER := lib.marshalECPrivateKey(key);
        if keyDER.Err? then Err(MarshalKeyError(keyDER.error))
        else Ok(PemBundle(lib, certDER.value, keyDER.value))
  }

  // ---------------------------------------------------------------------
  // The two operations
  // ---------------------------------------------------------------------

  /**
    GenerateCA: generate a key, draw a serial, self-sign the CA template
    with the new key, marshal the key and PEM-encode both. `steps` lists the
    calls made; a failing call is the last one and its error is returned.
   */
  method GenerateCA(config: CAConfig, lib: Library, rng: Entropy, now: Time)
    returns (result: Result<CertBundle, IssueError>, steps: seq<Step>)
    requires SerialInRange(rng)
    ensures result == CAOutcome(config, lib, rng, now)
    ensures steps != [] && steps <= CASteps
    ensures result.Ok? ==> steps == CASteps
    ensures result.Err? ==> steps[|steps| - 1] == result.error.FailedStep()
  {
    steps := [GenerateKey];
    if rng.key.Err? {
      return Err(KeyGenerationError(rng.key.error)), steps;
    }
    var privKey := rng.key.value;

    steps := steps + [GenerateSerial];
    if rng.serial.Err? {
      return Err(SerialGenerationError(rng.serial.error)), steps;
    }
    var serialNumber := rng.serial.value;

    var template := CATemplate(config, serialNumber, now);

    steps := steps + [CreateCertificate];
    var certDER := lib.createCertificate(template, TemplateParent(template), lib.publicKey(privKey), privKey);
    if certDER.Err? {
      return Err(CreateCertificateError(certDER.error)), steps;
    }

    steps := steps + [EncodeCertificate];
    var certPEM := lib.pemEncode(PemBlock(CertificateType, certDER.value));

    steps := steps + [MarshalKey];
    var privKeyDER := lib.marshalECPrivateKey(privKey);
    if privKeyDER.Err? {
      return Err(MarshalKeyError(privKeyDER.error)), steps;
    }

    steps := steps + [EncodeKey];
    var keyPEM := lib.pemEncode(PemBlock(ECPrivateKeyType, privKeyDER.value));

    result := Ok(CertBundle(certPEM, keyPEM));
  }

  /**
    GenerateCert: decode and parse the CA certificate, then the CA key, and
    only then generate a key, draw a serial, sign the leaf template with the
    CA certificate as parent and the CA key as signer, marshal the new key
    and PEM-encode both. Key generation is reached exactly when the CA
    material is usable.
   */
  method GenerateCert(config: CertConfig, caCertPEM: Bytes, caKeyPEM: Bytes, lib: Library, rng: Entropy, now: Time)
    returns (result: Result<CertBundle, IssueError>, steps: seq<Step>)
    requires SerialInRange(rng)
    ensures result == LeafOutcome(config, caCertPEM, caKeyPEM, lib, rng, now)
    ensures steps != [] && steps <= LeafSteps
    ensures result.Ok? ==> steps == LeafSteps
    ensures result.Err? ==> steps[|steps| - 1] == result.error.FailedStep()
    ensures GenerateKey in steps <==> ParseCA(lib, caCertPEM, caKeyPEM).Ok?
  {
    steps := [DecodeCACert];
    var caCertBlock := lib.pemDecode(caCertPEM);
    if caCertBlock.None? {
      return Err(CACertDecodeError), steps;
    }

    steps := steps + [ParseCACert];
    var caCert := lib.parseCertificate(caCertBlock.value.block.bytes);
    if caCert.Err? {
      return Err(CACertParseError(caCert.error)), steps;
    }

    steps := steps + [DecodeCAKey];
    var caKeyBlock := lib.pemDecode(caKeyPEM);
    if caKeyBlock.None? {
      return Err(CAKeyDecodeError), steps;
    }

    steps := steps + [ParseCAKey];
    var caKey := lib.parseECPrivateKey(caKeyBlock.value.block.bytes);
    if caKey.Err? {
      return Err(CAKeyParseError(caKey.error)), steps;
    }

    steps := steps + [GenerateKey];
    if rng.key.Err? {
      return Err(KeyGenerationError(rng.key.error)), steps;
    }
    var privKey := rng.key.value;

    steps := steps + [GenerateSerial];
    if rng.serial.Err? {
      return Err(SerialGenerationError(rng.serial.error)), steps;
    }
    var serialNumber := rng.serial.value;

    var template := LeafTemplate(config, serialNumber, now);

    steps := steps + [CreateCertificate];
    var certDER := lib.createCertificate(template, CertParent(caCert.value), lib.publicKey(privKey), caKey.value);
    if certDER.Err? {
      return Err(CreateCertificateError(certDER.error)), steps;
    }

    steps := steps + [EncodeCertificate];
    var certPEM := lib.pemEncode(PemBlock(CertificateType, certDER.value));

    steps := steps + [MarshalKey];
    var privKeyDER := lib.marshalECPrivateKey(privKey);
    if privKeyDER.Err? {
      return Err(MarshalKeyError(privKeyDER.error)), steps;
    }

    steps := steps + [EncodeKey];
    var keyPEM := lib.pemEncode(PemBlock(ECPrivateKeyType, privKeyDER.value));

    result := Ok(CertBundle(certPEM, keyPEM));
  }

  // ---------------------------------------------------------------------
  // Properties of the outcomes
  // ---------------------------------------------------------------------

  /** A CA issuance succeeds exactly when key generation, the serial draw,
      signing and key marshalling all succeed; it then returns the
      certificate self-signed by the new key (the template is its own
      parent) and that key, as CERTIFICATE and EC PRIVATE KEY blocks. It
      never reports a CA-input error and its serial is below 2^128. */
  lemma CAIssuance(config: CAConfig, lib: Library, rng: Entropy, now: Time)
    requires SerialInRange(rng)
    ensures var r := CAOutcome(config, lib, rng, now);
      && (r.Err? ==> !r.error.IsInvalidCAInput())
      && (r.Ok? <==>
            && rng.key.Ok? && rng.serial.Ok?
            && (var t := CATemplate(config, rng.serial.value, now);
                lib.createCertificate(t, TemplateParent(t), lib.publicKey(rng.key.value), rng.key.value).Ok?)
            && lib.marshalECPrivateKey(rng.key.value).Ok?)
      && (r.Ok? ==>
            && rng.serial.value < SerialLimit
            && var key := rng.key.value;
               var t := CATemplate(config, rng.serial.value, now);
               r.value == PemBundle(lib,
                 lib.createCertificate(t, TemplateParent(t), lib.publicKey(key), key).value,
                 lib.marshalECPrivateKey(key).value))
  {
  }

  /** Each CA issuance step that fails is reported with its own error,
      carrying the library's error text, and the later steps are not
      reached. */
  lemma CAStepErrors(config: CAConfig, lib: Library, rng: Entropy, now: Time)
    ensures var r := CAOutcome(config, lib, rng, now);
      && (rng.key.Err? ==> r == Err(KeyGenerationError(rng.key.error)))
      && (rng.key.Ok? && rng.serial.Err? ==> r == Err(SerialGenerationError(rng.serial.error)))
      && (rng.key.Ok? && rng.serial.Ok? ==>
            var key := rng.key.value;
            var t := CATemplate(config, rng.serial.value, now);
            var certDER := lib.createCertificate(t, TemplateParent(t), lib.publicKey(key), key);
            && (certDER.Err? ==> r == Err(CreateCertificateError(certDER.error)))
            && (certDER.Ok? && lib.marshalECPrivateKey(key).Err? ==>
                  r == Err(MarshalKeyError(lib.marshalECPrivateKey(key).error))))
  {
  }

  /** Once the CA material is usable, each later leaf issuance step that
      fails is reported with its own error, as in a CA issuance. */
  lemma LeafStepErrors(config: CertConfig, caCertPEM: Bytes, caKeyPEM: Bytes, lib: Library, rng: Entropy, now: Time)
    requires ParseCA(lib, caCertPEM, caKeyPEM).Ok?
    ensures var r := LeafOutcome(config, caCertPEM, caKeyPEM, lib, rng, now);
      var ca := ParseCA(lib, caCertPEM, caKeyPEM).value;
      && (rng.key.Err? ==> r == Err(KeyGenerationError(rng.key.error)))
      && (rng.key.Ok? && rng.serial.Err? ==> r == Err(SerialGenerationError(rng.serial.error)))
      && (rng.key.Ok? && rng.serial.Ok? ==>
            var key := rng.key.value;
            var t := LeafTemplate(config, rng.serial.value, now);
            var certDER := lib.createCertificate(t, CertParent(ca.cert), lib.publicKey(key), ca.key);
            && (certDER.Err? ==> r == Err(CreateCertificateError(certDER.error)))
            && (certDER.Ok? && lib.marshalECPrivateKey(key).Err? ==>
                  r == Err(MarshalKeyError(lib.marshalECPrivateKey(key).error))))
  {
  }

  /** A leaf issuance with unusable CA material fails with that CA-input
      error, whatever the configuration and the random source. */
  lemma LeafRejectsCAFirst(config: CertConfig, caCertPEM: Bytes, caKeyPEM: Bytes, lib: Library, rng: Entropy, now: Time)
    requires ParseCA(lib, caCertPEM, caKeyPEM).Err?
    ensures var r := LeafOutcome(config, caCertPEM, caKeyPEM, lib, rng, now);
      r.Err? && r.error.IsInvalidCAInput() && r.error == ParseCA(lib, caCertPEM, caKeyPEM).error
  {
  }

  /** A leaf issuance succeeds exactly when the CA material is usable and
      key generation, the serial draw, signing and key marshalling all
      succeed. A successful one has a serial below 2^128, signed the leaf
      template with the parsed CA certificate as parent and the parsed CA
      key as signer, and returns CERTIFICATE and EC PRIVATE KEY blocks.
      Once the CA material is usable, no error is a CA-input error. */
  lemma LeafIssuance(config: CertConfig, caCertPEM: Bytes, caKeyPEM: Bytes, lib: Library, rng: Entropy, now: Time)
    requires SerialInRange(rng)
    ensures var r := LeafOutcome(config, caCertPEM, caKeyPEM, lib, rng, now);
      var ca := ParseCA(lib, caCertPEM, caKeyPEM);
      && (r.Ok? <==>
            && ca.Ok? && rng.key.Ok? && rng.serial.Ok?
            && (var t := LeafTemplate(config, rng.serial.value, now);
                lib.createCertificate(t, CertParent(ca.value.cert), lib.publicKey(rng.key.value), ca.value.key).Ok?)
            && lib.marshalECPrivateKey(rng.key.value).Ok?)
      && (r.Ok? ==>
            && ca.Ok? && rng.key.Ok? && rng.serial.Ok? && rng.serial.value < SerialLimit
            && var key := rng.key.value;
               var t := LeafTemplate(config, rng.serial.value, now);
               r.value == PemBundle(lib,
                 lib.createCertificate(t, CertParent(ca.value.cert), lib.publicKey(key), ca.value.key).value,
                 lib.marshalECPrivateKey(key).value))
      && (ca.Ok? && r.Err? ==> !r.error.IsInvalidCAInput())
  {
  }

  /** Input without a "-----BEGIN " line is rejected at the first step. */
  lemma NonPemCARejected(config: CertConfig, caCertPEM: Bytes, caKeyPEM: Bytes, lib: Library, rng: Entropy, now: Time)
    requires PemNeedsBeginLine(lib)
    requires !HasInfix(caCertPEM, PemBegin)
    ensures LeafOutcome(config, caCertPEM, caKeyPEM, lib, rng, now) == Err(CACertDecodeError)
  {
    assert lib.pemDecode(caCertPEM).None?;
  }

  /** The literal text "invalid" as CA certificate and key fails with the
      CA-certificate decoding error. */
  lemma InvalidTextRejected(config: CertConfig, lib: Library, rng: Entropy, now: Time)
    requires PemNeedsBeginLine(lib)
    ensures LeafOutcome(config, Utf8Bytes("invalid"), Utf8Bytes("invalid"), lib, rng, now) == Err(CACertDecodeError)
  {
    AsciiBytes("invalid");
    assert !HasInfix(Utf8Bytes("invalid"), PemBegin);
    NonPemCARejected(config, Utf8Bytes("invalid"), Utf8Bytes("invalid"), lib, rng, now);
  }

  /** With PEM framing, each part of an issued bundle decodes back to the
      block it encodes, with nothing after it, and the unified PEM decodes
      to the certificate block followed by exactly the key PEM. */
  lemma PemBundleDecodes(lib: Library, certDER: Bytes, keyDER: Bytes)
    requires PemFraming(lib)
    ensures var b := PemBundle(lib, certDER, keyDER);
      && lib.pemDecode(b.certPEM) == Some(Decoded(PemBlock(CertificateType, certDER), []))
      && lib.pemDecode(b.keyPEM) == Some(Decoded(PemBlock(ECPrivateKeyType, keyDER), []))
      && lib.pemDecode(b.UnifiedPEM()) == Some(Decoded(PemBlock(CertificateType, certDER), b.keyPEM))
  {
    var b := PemBundle(lib, certDER, keyDER);
    assert PemTypeLabel(CertificateType) && PemTypeLabel(ECPrivateKeyType);
    assert b.certPEM + [] == b.certPEM;
    assert b.keyPEM + [] == b.keyPEM;
    assert lib.pemDecode(lib.pemEncode(PemBlock(CertificateType, certDER)) + []) == Some(Decoded(PemBlock(CertificateType, certDER), []));
    assert lib.pemDecode(lib.pemEncode(PemBlock(ECPrivateKeyType, keyDER)) + []) == Some(Decoded(PemBlock(ECPrivateKeyType, keyDER), []));
    assert lib.pemDecode(lib.pemEncode(PemBlock(CertificateType, certDER)) + b.keyPEM) == Some(Decoded(PemBlock(CertificateType, certDER), b.keyPEM));
  }

  /** A CA bundle is usable CA material: given back to leaf issuance, as
      its certificate PEM or as its unified PEM, it yields the issued CA
      certificate and the CA's own key, so a leaf issued from it is never
      rejected as invalid CA input and is signed by that key. */
  lemma CABundleIsUsableCA(caConfig: CAConfig, lib: Library, caRng: Entropy, now: Time,
                           config: CertConfig, rng: Entropy, leafNow: Time)
    requires PemFraming(lib) && KeyMarshalRoundTrip(lib) && IssuedCertificatesParse(lib)
    requires CAOutcome(caConfig, lib, caRng, now).Ok?
    ensures var ca := CAOutcome(caConfig, lib, caRng, now).value;
      var key := caRng.key.value;
      var t := CATemplate(caConfig, caRng.serial.value, now);
      var material := CAMaterial(Certificate(lib.createCertificate(t, TemplateParent(t), lib.publicKey(key), key).value), key);
      && ParseCA(lib, ca.certPEM, ca.keyPEM) == Ok(material)
      && ParseCA(lib, ca.UnifiedPEM(), ca.keyPEM) == Ok(material)
      && var r := LeafOutcome(config, ca.certPEM, ca.keyPEM, lib, rng, leafNow);
         (r.Err? ==> !r.error.IsInvalidCAInput())
  {
    var key := caRng.key.value;
    var t := CATemplate(caConfig, caRng.serial.value, now);
    var certDER := lib.createCertificate(t, TemplateParent(t), lib.publicKey(key), key).value;
    var keyDER := lib.marshalECPrivateKey(key).value;
    PemBundleDecodes(lib, certDER, keyDER);
    assert lib.parseCertificate(certDER) == Ok(Certificate(certDER));
    assert lib.parseECPrivateKey(keyDER) == Ok(key);
  }
}
