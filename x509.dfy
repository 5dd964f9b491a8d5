/**
  The interface of Go's `crypto/x509`, `encoding/pem` and `crypto/ecdsa`
  packages as the certificate generator uses it: the certificate template
  (the fields of RFC 5280 the generator sets), key-usage flags, PEM blocks,
  and the foreign calls themselves, which are supplied as uninterpreted
  functions in a `Library` value; also Go's int64 arithmetic (wrap-around
  and the float-to-int conversion).
 */
module X509 {
  import opened Results
  import opened GoStrings

  // ---------------------------------------------------------------------
  // Go integers and time
  // ---------------------------------------------------------------------

  const MinInt64: int := -0x8000_0000_0000_0000
  const MaxInt64: int := 0x7FFF_FFFF_FFFF_FFFF

  /** Go's `int` and `int64` (and `time.Duration`, which is an `int64`). */
  type Int64 = x: int | MinInt64 <= x <= MaxInt64

  /** Two's-complement wrap-around of an exact product or sum to 64 bits, as
      Go's signed integer arithmetic does on overflow. */
  function WrapInt64(x: int): (r: Int64)
    ensures (r - x) % 0x1_0000_0000_0000_0000 == 0
    ensures MinInt64 <= x <= MaxInt64 ==> r == x
  {
    (x - MinInt64) % 0x1_0000_0000_0000_0000 + MinInt64
  }


  /** Go's conversion `int(x)` of a float64 on a 64-bit platform: the
      fraction is discarded, rounding toward zero. Go leaves the result of
      an out-of-range conversion to the implementation; here it is the
      minimum int64, as amd64 gives. */
  function TruncateToInt64(x: real): (r: Int64)
    ensures -9223372036854775809.0 < x < 9223372036854775808.0 ==>
      if x >= 0.0 then r as real <= x < r as real + 1.0 else r as real - 1.0 < x <= r as real
  {
    var t := if x >= 0.0 then x.Floor else -((-x).Floor);
    if MinInt64 <= t <= MaxInt64 then t else MinInt64
  }

  /** An instant, in nanoseconds since the Unix epoch (`time.Time`). */
  type Time = int

  /** `time.Hour`, in nanoseconds. */
  const Hour: Int64 := 3_600_000_000_000

  // ---------------------------------------------------------------------
  // Key usage (RFC 5280, section 4.2.1.3) and extended key usage
  // (RFC 5280, section 4.2.1.12)
  // ---------------------------------------------------------------------

  /** The bits of the keyUsage extension, in Go's `x509.KeyUsage` order. */
  datatype KeyUsage =
    | DigitalSignature | ContentCommitment | KeyEncipherment | DataEncipherment
    | KeyAgreement | CertSign | CRLSign | EncipherOnly | DecipherOnly
  {
    /** Go's constant `x509.KeyUsage<name>`: `1 << iota`. */
    function Bit(): bv16 {
      match this
      case DigitalSignature => 0x001
      case ContentCommitment => 0x002
      case KeyEncipherment => 0x004
      case DataEncipherment => 0x008
      case KeyAgreement => 0x010
      case CertSign => 0x020
      case CRLSign => 0x040
      case EncipherOnly => 0x080
      case DecipherOnly => 0x100
    }
  }

  const AllKeyUsages: set<KeyUsage> :=
    {DigitalSignature, ContentCommitment, KeyEncipherment, DataEncipherment,
     KeyAgreement, CertSign, CRLSign, EncipherOnly, DecipherOnly}

  /** The usages whose bits are set in a Go `x509.KeyUsage` mask. */
  function KeyUsages(mask: bv16): set<KeyUsage> {
    set u | u in AllKeyUsages && mask & u.Bit() != 0
  }

  /** `x509.ExtKeyUsageServerAuth` and `x509.ExtKeyUsageClientAuth` (the
      id-kp-serverAuth and id-kp-clientAuth purposes); the generator uses
      no other. */
  datatype ExtKeyUsage = ServerAuth | ClientAuth

  // ---------------------------------------------------------------------
  // The certificate template (an `x509.Certificate` used as a template)
  // ---------------------------------------------------------------------

  /** The subject distinguished name (`pkix.Name`), restricted to the
      attributes the generator sets. */
  datatype Name = Name(
    organization: seq<string>,
    commonName: string,
    country: seq<string>,
    locality: seq<string>)

  /** The fields of `x509.Certificate` that the generator sets; every other
      field keeps Go's zero value. `maxPathLen` 0 with `isCA` false is the
      zero value too. `ipAddresses` stands for the SAN iPAddress entries. */
  datatype Template = Template(
    serialNumber: nat,
    subject: Name,
    notBefore: Time,
    notAfter: Time,
    keyUsage: bv16,
    extKeyUsage: seq<ExtKeyUsage>,
    basicConstraintsValid: bool,
    isCA: bool,
    maxPathLen: int,
    dnsNames: seq<string>,
    ipAddresses: seq<Bytes>)

  // ---------------------------------------------------------------------
  // Keys, parsed certificates and PEM blocks
  // ---------------------------------------------------------------------

  /** An ECDSA private key on P-384: its secret scalar. */
  datatype PrivateKey = PrivateKey(d: nat)

  /** An ECDSA public key on P-384: a curve point. */
  datatype PublicKey = PublicKey(x: nat, y: nat)

  /** A certificate as returned by `x509.ParseCertificate`, identified by
      its DER encoding. */
  datatype Certificate = Certificate(raw: Bytes)

  /** The `parent` argument of `x509.CreateCertificate`: the template itself
      for a self-signed certificate, or a parsed issuer certificate. */
  datatype Parent = TemplateParent(template: Template) | CertParent(cert: Certificate)

  /** A `pem.Block` without headers: its type and its DER payload. */
  datatype PemBlock = PemBlock(blockType: string, bytes: Bytes)

  /** What `pem.Decode` returns when it finds a block: the block and the
      bytes after it. */
  datatype Decoded = Decoded(block: PemBlock, rest: Bytes)

  /**
    The foreign calls the generator makes, as uninterpreted functions.
    Randomness that `x509.CreateCertificate` draws for the signature is
    folded into `createCertificate`.
   */
  datatype Library = Library(
    pemDecode: Bytes -> Option<Decoded>,                                      // pem.Decode
    pemEncode: PemBlock -> Bytes,                                             // pem.EncodeToMemory
    parseCertificate: Bytes -> Result<Certificate, string>,                  // x509.ParseCertificate
    parseECPrivateKey: Bytes -> Result<PrivateKey, string>,                  // x509.ParseECPrivateKey
    createCertificate: (Template, Parent, PublicKey, PrivateKey) -> Result<Bytes, string>,  // x509.CreateCertificate
    marshalECPrivateKey: PrivateKey -> Result<Bytes, string>,                // x509.MarshalECPrivateKey
    publicKey: PrivateKey -> PublicKey)                                       // &privKey.PublicKey

  /** A block type written on one line that `pem.Decode` reads back as
      written: upper-case letters, digits and inner spaces, neither starting
      nor ending with a space. This is a subset of the labels of RFC 7468,
      section 3. `pem.EncodeToMemory` does not check the type, and a type
      holding a line break or ending in "-" is not read back. */
  predicate PemTypeLabel(t: string) {
    && t != [] && t[0] != ' ' && t[|t| - 1] != ' '
    && forall i :: 0 <= i < |t| ==> 'A' <= t[i] <= 'Z' || '0' <= t[i] <= '9' || t[i] == ' '
  }

  /** The framing promise of `encoding/pem` for blocks without headers
      whose type is such a label: decoding an encoded block followed by any
      bytes finds that block and leaves exactly those bytes (the encoding
      ends with its END line and a line break). */
  ghost predicate PemFraming(lib: Library) {
    forall b: PemBlock, rest: Bytes | PemTypeLabel(b.blockType) ::
      lib.pemDecode(lib.pemEncode(b) + rest) == Some(Decoded(b, rest))
  }

  /** "-----BEGIN ", the start of every PEM encapsulation boundary. */
  const PemBegin: Bytes := [45, 45, 45, 45, 45, 66, 69, 71, 73, 78, 32]

  /** Whether `m` occurs in `s` as a contiguous run of bytes. */
  function HasInfix(s: Bytes, m: Bytes): bool
    decreases |s|
  {
    |s| >= |m| && (s[..|m|] == m || HasInfix(s[1..], m))
  }

  /** `pem.Decode` finds a block only where a "-----BEGIN " line occurs. */
  ghost predicate PemNeedsBeginLine(lib: Library) {
    forall data: Bytes :: lib.pemDecode(data).Some? ==> HasInfix(data, PemBegin)
  }

  /** `x509.ParseECPrivateKey` recovers every key that
      `x509.MarshalECPrivateKey` encodes. */
  ghost predicate KeyMarshalRoundTrip(lib: Library) {
    forall k: PrivateKey :: lib.marshalECPrivateKey(k).Ok? ==>
      lib.parseECPrivateKey(lib.marshalECPrivateKey(k).value) == Ok(k)
  }

  /** `x509.ParseCertificate` accepts the DER that `x509.CreateCertificate`
      produces. */
  ghost predicate IssuedCertificatesParse(lib: Library) {
    forall t: Template, p: Parent, pub: PublicKey, k: PrivateKey :: lib.createCertificate(t, p, pub, k).Ok? ==>
      lib.parseCertificate(lib.createCertificate(t, p, pub, k).value) == Ok(Certificate(lib.createCertificate(t, p, pub, k).value))
  }
}
