# certgen core in Dafny

This project models the core of `certgen`, a small tool that issues X.509
certificates. The tool has two front ends over one generator:
- an HTTP service with a web form, which `main.go` starts
  (`internal/server/server.go`);
- a set of MCP (Model Context Protocol) tools that expose the same
  issuance (`internal/mcp/mcp.go`).

The model covers the generator and the MCP front end:

- The certificate generator (`internal/certificate/generator.go`):
  - the `CAConfig`, `CertConfig` and `CertBundle` records;
  - the unified PEM view of a bundle;
  - the CA template and the leaf template, with their subject, validity
    period, key usages, extended key usages, basic constraints and DNS names;
  - `GenerateCA` and `GenerateCert`, each with its fixed order of fallible
    steps and the error each step reports.
- The MCP tool handlers (`internal/mcp/mcp.go`):
  - how the arguments of `generate_ca`, `generate_server_certificate` and
    `generate_client_certificate` become configurations, defaults included;
  - how comma-separated DNS-name and IP-address lists are split and
    trimmed;
  - how a generator error is wrapped in the handler's own error.

Modules:

- `Results` (`results.dfy`): `Option` and `Result`.
- `GoStrings` (`gostrings.dfy`): the parts of Go's `strings` package and
  string-to-bytes conversion that the handlers use:
  - `strings.Split` with a one-character separator;
  - `strings.TrimSpace` with Go's Unicode white-space set;
  - UTF-8 encoding;
  - `strconv.Atoi`, which `GetInt` uses on string arguments.
- `X509` (`x509.dfy`): the outside world, in three parts:
  - Go's int64 arithmetic: wrap-around on overflow, and the truncating
    float64-to-int conversion that `GetInt` applies to JSON numbers;
  - `x509.KeyUsage` bit values;
  - the `x509.Certificate` template fields the generator sets.

  The library calls (`pem`, `x509`, ECDSA) become fields of a `Library`
  value, so every theorem holds for any behaviour of those calls. Where a
  theorem needs a promise of the library, it takes that promise as a
  hypothesis:
  - `PemFraming`: decoding an encoded block whose type is a one-line label
    (`PemTypeLabel`: upper-case letters, digits and inner spaces, as
    CERTIFICATE and EC PRIVATE KEY are) finds the block and leaves the
    bytes after it;
  - `PemNeedsBeginLine`: no block is found without a `-----BEGIN ` line;
  - `KeyMarshalRoundTrip`: parsing a marshalled key returns that key;
  - `IssuedCertificatesParse`: issued DER parses.
- `Certificate` (`certificate.dfy`): the generator.
  - `CAOutcome` and `LeafOutcome` specify the result of each issuance.
  - The methods `GenerateCA` and `GenerateCert` run the steps one at a time
    with early returns. They are proved to return that result and to
    perform a prefix of the step sequence that ends at the failing step.
- `Mcp` (`mcp.dfy`): the handlers.
  - `SplitAndTrim` is the in-place split/trim loop, proved equal to the
    specification function `CommaList`.

Randomness is a parameter of the model: an `Entropy` value holds the outcome
of the key draw and of the serial draw. The wall clock is a parameter too:
the issuance time `now`, as an integer count of nanoseconds.

## Model

| member | source | states |
|---|---|---|
| Certificate.CertBundle.UnifiedPEM | internal/certificate/generator.go:43-49 | The unified PEM is exactly the certificate PEM followed by the key PEM. Its length is the sum of theirs, and neither part is altered or separated. |
| Certificate.PemBundleDecodes | internal/certificate/generator.go:89-103 | Under PEM framing for one-line labels, which both block types are, the certificate part decodes to a CERTIFICATE block and the key part to an EC PRIVATE KEY block, each with nothing after it. The unified PEM decodes to the certificate block followed by exactly the key PEM. |
| X509.WrapInt64 | internal/certificate/generator.go:75 | Reduction to int64 agrees with the exact value modulo 2^64. It is the identity on values that already fit. |
| Certificate.ExpiryDurationExact | internal/certificate/generator.go:75 | For day counts within ±106751, `time.Duration(days) * 24 * time.Hour` is exactly days × 24 hours. This holds for zero and negative counts too. |
| Certificate.ExpiryDurationWraps | internal/certificate/generator.go:75 | At 106752 days the duration wraps to a negative value. At −106752 days it wraps to a positive value. At 213504 days it wraps around again, to 1,526,290,448,384 ns. |
| Certificate.ExpiryDurationNegativeBand | internal/certificate/generator.go:75 | For 106752 to 213503 days the duration is the true one less 2^64 ns, so it is negative. |
| Certificate.ExpiryDurationPositiveBand | internal/certificate/generator.go:75 | For −213503 to −106752 days the duration is the true one plus 2^64 ns, so it is positive. |
| Certificate.CAKeyUsages | internal/certificate/generator.go:76 | The CA key-usage mask decodes to exactly {DigitalSignature, CertSign}. |
| Certificate.CATemplateProfile | internal/certificate/generator.go:66-81 | The CA template is for a CA: IsCA, basic constraints valid, path length 1, ServerAuth then ClientAuth, no DNS names or IP addresses. |
| Certificate.CATemplateSubjectAndValidity | internal/certificate/generator.go:66-75 | The CA subject is built from the configured organization, common name, country and locality. The serial is the drawn one and NotBefore is now. NotAfter is now plus the configured number of days whenever that does not overflow. |
| Certificate.LeafKeyUsages | internal/certificate/generator.go:157 | The leaf key-usage mask decodes to exactly {DigitalSignature, KeyEncipherment}. |
| Certificate.LeafTemplateProfile | internal/certificate/generator.go:147-174 | A leaf is not a CA and has basic constraints valid. A client leaf has ClientAuth only and no DNS names. A server leaf has ServerAuth only and exactly the configured DNS names. No leaf carries IP addresses. |
| Certificate.LeafTemplateSubjectAndValidity | internal/certificate/generator.go:147-156 | The leaf has the same subject, serial and validity rules as the CA template. |
| Certificate.GenerateCA | internal/certificate/generator.go:52-109 | Returns the specified CA outcome. The steps performed are a prefix of key, serial, create, encode cert, marshal key, encode key. All steps run on success. On failure the last step performed is the one the error names. |
| Certificate.CAStepErrors | internal/certificate/generator.go:54-98 | Each failing CA step gives its own error with the library's error text: key generation, then serial, then signing, then key marshalling. |
| Certificate.CAIssuance | internal/certificate/generator.go:52-109 | A CA issuance succeeds iff the key draw, the serial draw, signing and key marshalling all succeed, and it never reports a CA-input error. On success the certificate is self-signed: the template is its own parent and the new key signs it. The serial is below 2^128, and the bundle is the CERTIFICATE and EC PRIVATE KEY blocks. |
| Certificate.ParseCA | internal/certificate/generator.go:113-132 | The CA material is accepted iff the certificate PEM decodes, its DER parses, the key PEM decodes and its DER parses. The checks run in that order, and the first that fails names the error: certificate decode, certificate parse with the parser's text, key decode, key parse with the parser's text. Every rejection is an invalid-CA-input error. Accepted material is exactly the parsed certificate and the parsed key. |
| Certificate.GenerateCert | internal/certificate/generator.go:112-202 | Returns the specified leaf outcome. The steps are a prefix of decode CA cert, parse, decode CA key, parse, then the CA steps, ending at the failing step. A key is generated iff the CA material was accepted. |
| Certificate.LeafRejectsCAFirst | internal/certificate/generator.go:113-132 | Unusable CA material fails the leaf issuance with that CA-input error, whatever the configuration and randomness. |
| Certificate.LeafStepErrors | internal/certificate/generator.go:135-191 | Once the CA material is accepted, each failing later step gives its own error with the library's error text, in the same order as for a CA. |
| Certificate.LeafIssuance | internal/certificate/generator.go:134-201 | A leaf succeeds iff the CA material is accepted and key generation, the serial draw, signing and key marshalling all succeed. A successful leaf has a serial below 2^128. It is signed by the parsed CA key, with the parsed CA certificate as parent. After acceptance no error is a CA-input error. |
| Certificate.NonPemCARejected | internal/certificate/generator.go:114-117 | CA certificate bytes without a `-----BEGIN ` line fail with "failed to decode CA certificate PEM". |
| Certificate.InvalidTextRejected | internal/certificate/generator_test.go:229-243 | The text "invalid" as CA certificate and key fails at the first step. |
| Certificate.CABundleIsUsableCA | internal/certificate/generator_test.go:90-138 | Under PEM framing for one-line labels, key round-tripping and parsing of issued DER, a CA bundle given back to leaf issuance is accepted. This holds as its certificate PEM and also as its unified PEM. It yields the issued CA certificate and the CA's own key, so a leaf issued from it is never rejected as invalid CA input. |
| GoStrings.SplitCount | internal/mcp/mcp.go:178 | Splitting on ',' yields one more segment than there are commas. |
| GoStrings.SplitPiecesFree | internal/mcp/mcp.go:178 | No segment contains the separator. |
| GoStrings.JoinSplit | internal/mcp/mcp.go:178 | Rejoining the segments with the separator gives back the input. |
| GoStrings.SplitJoin | internal/mcp/mcp.go:178 | Splitting a separator-joined list of separator-free parts gives back the parts. |
| GoStrings.TrimSpaceSpec | internal/mcp/mcp.go:180 | TrimSpace returns the infix left after removing the longest white-space prefix and suffix. Both removed runs are white space, and the result neither starts nor ends with white space. |
| GoStrings.TrimSpaceOfPadded | internal/mcp/mcp.go:180 | Padding a string whose ends are not white space with white space on either side, then trimming, gives the string back. |
| GoStrings.AsciiBytes | internal/mcp/mcp.go:203 | `[]byte(s)` of an ASCII string has one byte per character, equal to its code. |
| GoStrings.Utf8Append | internal/mcp/mcp.go:203 | `[]byte(s + t)` is `[]byte(s)` followed by `[]byte(t)`, for any text. |
| GoStrings.Utf8Length | internal/mcp/mcp.go:203 | `[]byte(s)` has between one and four bytes per character. |
| GoStrings.AtoiDecimal | internal/mcp/mcp.go:136 | `strconv.Atoi` reads back the decimal rendering of every int64, also with a '+' before a non-negative one and a '-' before a negative one. It reports an error for any rendering beyond int64, signed or unsigned. |
| GoStrings.AtoiRejects | internal/mcp/mcp.go:136 | `strconv.Atoi` reports an error for "", "+" and "-", and for any text with a non-digit after its first character. |
| X509.TruncateToInt64 | internal/mcp/mcp.go:136 | Converting an in-range float to an integer discards the fraction, rounding toward zero. |
| Mcp.GetInt | internal/mcp/mcp.go:136 | `GetInt` returns the default for a missing argument. Otherwise it takes an integer as it is, truncates a JSON number toward zero, takes a string's `strconv.Atoi` value when there is one, and falls back to the default for anything else. |
| Mcp.ExpiryFromNumber | internal/mcp/mcp.go:136 | The numbers 30 and 30.9 give 30 days, and −30.9 gives −30. |
| Mcp.ExpiryFromText | internal/mcp/mcp.go:136 | The string "30" gives 30 days, and "30 days" gives the default of 365. |
| Mcp.CommaList | internal/mcp/mcp.go:176-190 | The list is empty iff the text is empty. Otherwise it has one entry per comma-separated segment, CountOf(',') + 1 in all, and entry i is segment i trimmed. |
| Mcp.SplitAndTrim | internal/mcp/mcp.go:176-190 | The split-then-trim-in-place loop computes exactly `CommaList`. |
| Mcp.CommaListEntries | internal/mcp/mcp.go:176-182 | For non-empty text, the segments rejoin to the text and the entry count is the comma count plus one. No entry contains a comma, and no entry starts or ends with white space. |
| Mcp.CommaListKeepsEmptySegments | internal/mcp/mcp.go:176-182 | "a,,b" gives ["a", "", "b"]: empty segments are kept, not dropped. |
| Mcp.CommaListOfBlank | internal/mcp/mcp.go:176-182 | A blank non-empty text gives one empty entry rather than an empty list. |
| Mcp.CAConfigFromArguments | internal/mcp/mcp.go:132-144 | Each identity field comes from its argument, or "" when the argument is missing. The expiry is "expiryDays" as `GetInt` reads it, or 365 when it is missing. |
| Mcp.ServerConfigFromArguments | internal/mcp/mcp.go:166-201 | A server configuration is not a client one. Its DNS names and IP addresses are the parsed lists, empty when absent. Its identity fields and expiry equal the CA mapping's. |
| Mcp.ClientConfigFromArguments | internal/mcp/mcp.go:243-258 | A client configuration is a client one with no DNS names or IP addresses, whatever the arguments. Its identity fields and expiry equal the CA mapping's. |
| Mcp.HandlerSubjectAltNames | internal/mcp/mcp.go:192-201 | A server leaf's template lists exactly the parsed DNS names. A client leaf's template lists none, even when "dnsNames" is supplied. |
| Mcp.ToolOutcome | internal/mcp/mcp.go:146-149 | A generator error becomes a tool error carrying the handler's context and the generator's message, as "context: message". A success passes the bundle through unchanged. |
| Mcp.HandleGenerateCA | internal/mcp/mcp.go:131-162 | The CA tool issues a CA from the argument mapping and wraps any failure with "failed to generate CA". |
| Mcp.HandleGenerateServerCert | internal/mcp/mcp.go:165-239 | The server tool issues a server leaf from the UTF-8 bytes of "caCert" and "caKey" and the parsed lists. It wraps failures with "failed to generate server certificate". |
| Mcp.HandleGenerateClientCert | internal/mcp/mcp.go:242-296 | The client tool issues a client leaf from the UTF-8 bytes of "caCert" and "caKey". It wraps failures with "failed to generate client certificate". |

## Left out

- Cryptography and encodings are parameters of every theorem, not
  definitions. This covers ECDSA P-384 key generation, signing, ASN.1/DER,
  base64 and the PEM line format. The randomness that
  `x509.CreateCertificate` draws is folded into the `createCertificate`
  parameter.
- `crypto/rand` and `time.Now` are replaced by the `Entropy` and `now`
  parameters. The monotonic-clock reading of `time.Time` is not modelled;
  a time is a nanosecond count.
- `ChainPEM` and `FullChainPEM` are not modelled. They are called at
  mcp.go:235-236 and 292-293 and at server.go:268 and 279, but
  generator.go does not define them.
- The Markdown text each handler builds from a bundle (mcp.go:151-161,
  208-238, 265-295) is not modelled. The handlers return the bundle
  instead.
- MCP tool and schema registration is not modelled.
- The HTTP server (`internal/server/server.go`: routing, multipart
  parsing, ZIP writing, template rendering), `internal/random/generator.go`
  and `main.go` are not part of this model.
- Mcp.GetInt: a JSON number is modelled as an exact real rather than a
  float64, so NaN, infinities and float64 rounding are not modelled. Go
  leaves the result of converting an out-of-range float to an integer to the
  implementation; `TruncateToInt64` returns the minimum int64 there, as
  amd64 does. `int` is taken to be 64 bits wide.
- Go's distinction between a nil slice and an empty slice is not modelled.
  Both are the empty sequence.
- IP-address strings are split and trimmed, but the generator never parses
  them or attaches them to a template (generator.go:170-173 is a stub).
  The model does the same.
- Certificate.ParseCA: the code ignores the PEM block type and any bytes
  after the first block of each input, and the model ignores them too. A
  block of the wrong type is accepted or rejected only as far as the
  `x509` parser does so.

## Notes

- Serial numbers are drawn from [0, 2^128), so zero is possible. Section
  4.1.2.2 of RFC 5280 requires a positive serial. The model keeps the
  drawn range (`SerialInRange`) as the code has it.
- The validity duration is computed in int64 and wraps beyond ±106751
  days. From 106752 to 213503 days it is negative, so NotAfter falls before
  NotBefore (`ExpiryDurationNegativeBand`). Larger counts wrap around again:
  213504 days gives about 25 minutes (`ExpiryDurationWraps`). Negative
  counts mirror this (`ExpiryDurationPositiveBand`). The code performs no
  range check, and neither does the model.
- `UnifiedPEM` inserts no newline between the two blocks. Each block that
  `pem.EncodeToMemory` produces already ends with one.
