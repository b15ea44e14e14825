# Image signature batch workflow of the Kubernetes image promoter

This project models, in Dafny, the batch logic that the image promoter runs
around image signatures when it moves images from staging registries to
production registries:

- **Staging signature validation** (`ValidateStagingSignatures`): for each
  promotion edge, build the staging reference `srcRegistry/srcImage@digest`
  and ask the signer whether it is signed. An unsigned image is skipped. A
  signed image must verify. The first error ends the batch: a failing
  is-signed check, or a failing verification.
- **Promotion signing** (`SignImages`): for each edge, build the production
  reference `dstRegistry/dstImage@digest` and sign it. The first signing
  error ends the batch, and signatures already written stay.
- **SBOM writing** (`WriteSBOMs`): a stub that does nothing and succeeds.

## Structure

- `refs.dfy`, module `Refs`: promotion edges (`PromotionEdge`, with its
  registry contexts and image tags) and the reference format
  `registry/image@digest`. `SplitDigest` is its inverse: it splits a
  reference at the last `@`, so the format is proved to round-trip.
- `signer.dfy`, module `Signer`: the signer gateway, class
  `Signer.Gateway`. It stands in for the external signing library. Its
  state is the set `signed` of references that carry signatures in the
  registry. A ghost `log` records every call the gateway receives, in
  order. Which references make each operation fail is fixed by `Faults`.
  The gateway's replies are the functions `IsSignedReply`, `VerifyReply`
  and `SignReply`. Verification fails exactly on the references in
  `faults.verifyFails`; the batch logic asks for it only after the
  reference was reported signed. A successful sign adds the reference to
  `signed`.
- `promoter.dfy`, module `Promoter`: the batch operations. The functions
  `Validate` and `SignAll` specify a run over the edges in sequence order.
  A run is the pair of the outcome and the calls made to the signer, plus,
  for signing, the new set of signed references. The methods
  `ValidateStagingSignatures` and `SignImages` are the source's loops over
  the edges, calling the gateway; the body of the validation loop is the
  method `ValidateImage`. Each is proved equal to its
  specification function: outcome, final registry state and exact call
  log.
- `properties.dfy`, module `Properties`: the properties of those runs.
  They cover exact error reporting, fail-fast behaviour, which references
  are touched, skipping of unsigned images, success conditions and
  independence from order.

The edge set is a Go map, and Go leaves its iteration order unspecified.
The model therefore takes the edges as a sequence in any order. Every
property holds for every sequence. The `*OrderIrrelevant` lemmas show that
pass/fail, and on success the set of signed references, are the same for
every order. Which error is reported can depend on the order.

## Model

| member | source | states |
|---|---|---|
| `Refs.SrcRefFormat` | internal/promoter/image/sign.go:47-52 | the staging reference of an edge is exactly `srcRegistry.name + "/" + srcImageTag.name + "@" + digest` (the tag takes no part), and for an `@`-free digest it splits back into that registry/image location and the digest |
| `Refs.DstRefFormat` | internal/promoter/image/sign.go:84-89 | the production reference of an edge is exactly `dstRegistry.name + "/" + dstImageTag.name + "@" + digest` (the tag takes no part), and for an `@`-free digest it splits back into that registry/image location and the digest |
| `Refs.ImageRefRoundTrip` | internal/promoter/image/sign.go:47-52 | a reference built as `registry/image@digest` (digest without `@`) splits back into exactly its `registry/image` location and its digest |
| `Refs.SplitDigest` | internal/promoter/image/sign.go:47-52 | the inverse of the reference format: it fails exactly on strings without `@`; otherwise it gives a location and an `@`-free digest that reassemble into the input |
| `Refs.SourceAndDestinationRefsDiffer` | internal/promoter/image/sign.go:84-89 | when an edge moves an image to another location, the reference it signs differs from the staging reference it validated |
| `Promoter.ValidateRef` | internal/promoter/image/sign.go:53-72 | one edge of validation: the is-signed check is always made; verify is called exactly when the image is reported signed; the edge passes iff the check succeeds and, if signed, the image verifies; the error names the reference and the step that failed; nothing is written |
| `Promoter.ValidateImage` | internal/promoter/image/sign.go:53-72 | the loop body for one staged reference: its result and the calls it sends the gateway are exactly those of `ValidateRef` |
| `Promoter.Validate` | internal/promoter/image/sign.go:46-74 | validation of the batch in edge order, stopping at the first failing edge, never changes the signatures in the registry |
| `Promoter.ValidationFailureIsFinal` | internal/promoter/image/sign.go:56-71 | once a prefix of the edges has failed validation, the remaining edges change neither the outcome nor the calls made |
| `Promoter.ValidateStagingSignatures` | internal/promoter/image/sign.go:41-75 | the loop over the edges returns exactly the outcome of `Validate`; it sends the gateway exactly the calls of `Validate`'s run, in order; it leaves the registry's signatures unchanged |
| `Promoter.SignRef` | internal/promoter/image/sign.go:84-93 | one edge of signing: exactly one sign call on the reference; it passes iff the signer accepts; on success the reference is added to the signed set; on failure nothing changes and the error names the reference |
| `Promoter.SignAll` | internal/promoter/image/sign.go:83-95 | signing of the batch in edge order, stopping at the first failure, only ever adds signatures |
| `Promoter.SigningFailureIsFinal` | internal/promoter/image/sign.go:90-92 | once a prefix of the edges has failed signing, the remaining edges change neither the outcome, nor the signatures, nor the calls made |
| `Promoter.SignImages` | internal/promoter/image/sign.go:79-96 | the loop over the edges returns exactly the outcome of `SignAll`; it leaves the registry with `SignAll`'s signed set; it sends the gateway exactly `SignAll`'s calls, in order |
| `Promoter.WriteSBOMs` | internal/promoter/image/sign.go:100-104 | always returns nil (Pass) for every edge set; as a function it can call no signer operation |
| `Properties.ValidationSucceedsIff` | internal/promoter/image/sign.go:46-74 | validation returns nil iff every edge's is-signed check succeeds and every signed edge verifies (so nil for the empty edge set) |
| `Properties.ValidationStopsAtFirstFailure` | internal/promoter/image/sign.go:56-71 | if edge k is the first to fail, the error is "checking if signed" for that reference when the is-signed check failed, else "verifying signatures"; the calls made are those for edges before k and for k, none after |
| `Properties.ValidationUsesSourceRefs` | internal/promoter/image/sign.go:47-56 | every call validation makes is on the staging reference of some edge, and validation never signs |
| `Properties.UnsignedImagesAreNotVerified` | internal/promoter/image/sign.go:61-64 | verify is only ever called on a reference the signer reported as signed, so unsigned images are skipped without verification |
| `Properties.SignedImagesAreVerified` | internal/promoter/image/sign.go:61-71 | in a batch that validates, every edge whose staging reference the signer reports signed had that reference verified |
| `Properties.UnsignedBatchValidates` | internal/promoter/image/sign.go:55-64 | when every staged image is unsigned, validation returns nil after exactly one is-signed check per edge and no verification |
| `Properties.UnsignedThenInvalidScenario` | internal/promoter/image/sign.go:61-71 | an unsigned edge followed by one with an invalid signature: the error names the second edge's reference; the calls are check(A), check(B), verify(B) |
| `Properties.ValidationOrderIrrelevant` | internal/promoter/image/sign.go:46 | whether validation succeeds is the same for every iteration order of the edge set |
| `Properties.SigningSucceedsIff` | internal/promoter/image/sign.go:83-95 | signing returns nil iff the signer accepts every production reference (so nil for the empty edge set) |
| `Properties.SigningSignsEveryEdge` | internal/promoter/image/sign.go:83-95 | when the signer accepts every reference, the result is nil; exactly the production references of the batch are added to the registry; the calls are one sign call per edge, in order |
| `Properties.SigningStopsAtFirstFailure` | internal/promoter/image/sign.go:90-92 | if edge k is the first whose signing fails, the error names its production reference; the edges before k are signed and stay signed; no edge after k is sent to the signer |
| `Properties.SigningOnlyAddsDestinationRefs` | internal/promoter/image/sign.go:84-90 | signing never removes a signature and only ever adds production references of the batch; for an edge whose locations differ, that reference is not its staging reference (`Refs.SourceAndDestinationRefsDiffer`) |
| `Properties.SigningOrderIrrelevant` | internal/promoter/image/sign.go:83 | whether signing succeeds, and on success the final set of signed references, are the same for every iteration order of the edge set |

## Left out

- `GetIdentityToken` (internal/promoter/image/sign.go:109-130): it only builds a request to the cloud IAM credentials service and returns the token from its network reply. It has no batch logic.
- Signer internals: the signer's cryptography and registry I/O are not modelled. The gateway is modelled only by its replies. A reply depends only on the reference and on the set of signed references. Transient, non-deterministic backend failures are not modelled.
- Signer construction: each operation builds its own signer with `sign.New(sign.Default())`. In the model the signer is passed in as a parameter instead.
- Error messages: the text of the wrapped errors and the wrapped cause are not modelled. The error records the failing step and the reference it names.
- Logging: the `logrus` calls have no effect on the outcome.
- Unused inputs: the `Options` and `SyncContext` parameters, the per-edge map values and the `TestSigningAccount` constant are not used by this logic.
- Edge types: the fields of `PromotionEdge`, `RegistryContext` and `ImageTag` are modelled only as far as the references use them. `internal/legacy/dockerregistry` is not part of this model. The image tag is not part of a reference, so two edges that differ only in tag produce the same reference.
- `Refs.ImageRefRoundTrip` assumes the digest contains no `@`. Registry digests (`sha256:…`) never do. A reference built from a digest that contains `@` does not split back uniquely.
