/** The batch signature workflow of the image promoter: validating the
    signatures of staged images before promotion, signing the promoted
    images afterwards, and the SBOM writer stub.

    Each batch operation walks the promotion edges in iteration order and
    stops at the first error. The edge set is a Go map, whose iteration
    order is unspecified, so the edges are taken here as a sequence in any
    order; the properties in module Properties hold for every order. */
module Promoter {
  import opened Refs
  import opened Signer

  /** The error a batch operation returns: the step that failed and the
      reference it was working on. */
  datatype SignatureError =
    | CheckingSigned(ref: string)
    | VerifyingSignatures(ref: string)
    | SigningImage(ref: string)

  /** The `error` result of a batch operation: nil (Pass) or an error. */
  datatype Outcome = Pass | Fail(error: SignatureError)

  /** What running (part of) a batch amounts to: its outcome, the set of
      signed references in the registry afterwards, and the calls made to
      the signer, in order. */
  datatype Run = Run(outcome: Outcome, signed: set<string>, trace: seq<Call>)

  /** The condition under which one staged reference passes validation:
      the is-signed check succeeds, and if the image is signed, its
      signature verifies. */
  predicate RefPasses(faults: Faults, signed: set<string>, ref: string)
  {
    IsSignedReply(faults, signed, ref).Ok? &&
    (IsSignedReply(faults, signed, ref).value ==> VerifyReply(faults, signed, ref).Ok?)
  }

  /** Validation of one staged reference: one iteration of the loop in
      ValidateStagingSignatures. */
  function ValidateRef(faults: Faults, signed: set<string>, ref: string): (r: Run)
    ensures r.signed == signed
    ensures r.outcome.Pass? <==> RefPasses(faults, signed, ref)
    ensures r.outcome.Fail? ==>
              r.outcome.error == if IsSignedReply(faults, signed, ref).Err?
                                 then CheckingSigned(ref) else VerifyingSignatures(ref)
    ensures r.trace == if IsSignedReply(faults, signed, ref) == Ok(true)
                       then [IsSignedCall(ref), VerifyCall(ref)]
                       else [IsSignedCall(ref)]
  {
    match IsSignedReply(faults, signed, ref)
    case Err => Run(Fail(CheckingSigned(ref)), signed, [IsSignedCall(ref)])
    case Ok(false) => Run(Pass, signed, [IsSignedCall(ref)])
    case Ok(true) =>
      var calls := [IsSignedCall(ref), VerifyCall(ref)];
      match VerifyReply(faults, signed, ref)
      case Err => Run(Fail(VerifyingSignatures(ref)), signed, calls)
      case Ok(_) => Run(Pass, signed, calls)
  }

  /** Validation of a batch, edge by edge in sequence order, stopping at
      the first failure. Validation never writes to the registry. */
  function Validate(faults: Faults, signed: set<string>, edges: seq<PromotionEdge>): (r: Run)
    ensures r.signed == signed
  {
    if edges == [] then Run(Pass, signed, [])
    else
      var done := Validate(faults, signed, edges[..|edges| - 1]);
      if done.outcome.Fail? then done
      else
        var step := ValidateRef(faults, signed, SrcRef(edges[|edges| - 1]));
        Run(step.outcome, signed, done.trace + step.trace)
  }

  /** Signing of one production reference: one iteration of the loop in
      SignImages. */
  function SignRef(faults: Faults, signed: set<string>, ref: string): (r: Run)
    ensures r.outcome.Pass? <==> SignReply(faults, ref).Ok?
    ensures r.outcome.Fail? ==> r.outcome.error == SigningImage(ref)
    ensures r.signed == if r.outcome.Pass? then signed + {ref} else signed
    ensures r.trace == [SignCall(ref)]
  {
    match SignReply(faults, ref)
    case Err => Run(Fail(SigningImage(ref)), signed, [SignCall(ref)])
    case Ok(_) => Run(Pass, signed + {ref}, [SignCall(ref)])
  }

  /** Signing of a batch, edge by edge in sequence order, stopping at the
      first failure. Signatures are only ever added. */
  function SignAll(faults: Faults, signed: set<string>, edges: seq<PromotionEdge>): (r: Run)
    ensures signed <= r.signed
  {
    if edges == [] then Run(Pass, signed, [])
    else
      var done := SignAll(faults, signed, edges[..|edges| - 1]);
      if done.outcome.Fail? then done
      else
        var step := SignRef(faults, done.signed, DstRef(edges[|edges| - 1]));
        Run(step.outcome, step.signed, done.trace + step.trace)
  }

  /** Once a prefix of the batch has failed validation, the edges after it
      change nothing: neither the outcome nor the calls made. */
  lemma {:induction false} ValidationFailureIsFinal(
    faults: Faults, signed: set<string>, edges: seq<PromotionEdge>, k: nat)
    requires k <= |edges|
    requires Validate(faults, signed, edges[..k]).outcome.Fail?
    ensures Validate(faults, signed, edges) == Validate(faults, signed, edges[..k])
    decreases |edges|
  {
    if k < |edges| {
      var init := edges[..|edges| - 1];
      assert init[..k] == edges[..k];
      ValidationFailureIsFinal(faults, signed, init, k);
    } else {
      assert edges[..k] == edges;
    }
  }

  /** Once a prefix of the batch has failed signing, the edges after it
      change nothing: neither the outcome, the signatures nor the calls. */
  lemma {:induction false} SigningFailureIsFinal(
    faults: Faults, signed: set<string>, edges: seq<PromotionEdge>, k: nat)
    requires k <= |edges|
    requires SignAll(faults, signed, edges[..k]).outcome.Fail?
    ensures SignAll(faults, signed, edges) == SignAll(faults, signed, edges[..k])
    decreases |edges|
  {
    if k < |edges| {
      var init := edges[..|edges| - 1];
      assert init[..k] == edges[..k];
      SigningFailureIsFinal(faults, signed, init, k);
    } else {
      assert edges[..k] == edges;
    }
  }

  /** The body of the validation loop for one staged reference: ask
      whether it is signed; if so, verify it. */
  method ValidateImage(signer: Gateway, imageRef: string) returns (err: Outcome)
    modifies signer`log
    ensures err == ValidateRef(signer.faults, signer.signed, imageRef).outcome
    ensures signer.log == old(signer.log) + ValidateRef(signer.faults, signer.signed, imageRef).trace
  {
    var isSigned := signer.IsImageSigned(imageRef);
    if isSigned.Err? {
      return Fail(CheckingSigned(imageRef));
    }
    if !isSigned.value {
      return Pass;
    }
    var verified := signer.VerifyImage(imageRef);
    if verified.Err? {
      return Fail(VerifyingSignatures(imageRef));
    }
    return Pass;
  }

  /** Checks the signatures that staged images carry: an unsigned image is
      skipped, a signed one must verify; the first error ends the batch. */
  method ValidateStagingSignatures(signer: Gateway, edges: seq<PromotionEdge>)
    returns (err: Outcome)
    modifies signer`log
    ensures signer.signed == old(signer.signed)
    ensures err == Validate(signer.faults, signer.signed, edges).outcome
    ensures signer.log == old(signer.log) + Validate(signer.faults, signer.signed, edges).trace
  {
    ghost var faults, signed := signer.faults, signer.signed;
    ghost var done := Run(Pass, signed, []);
    for i := 0 to |edges|
      invariant signer.signed == signed
      invariant done == Validate(faults, signed, edges[..i]) && done.outcome == Pass
      invariant signer.log == old(signer.log) + done.trace
    {
      assert edges[..i + 1][..i] == edges[..i];
      var imageRef := SrcRef(edges[i]);
      err := ValidateImage(signer, imageRef);
      done := Run(err, signed, done.trace + ValidateRef(faults, signed, imageRef).trace);
      if err.Fail? {
        ValidationFailureIsFinal(faults, signed, edges, i + 1);
        return;
      }
    }
    assert edges[..|edges|] == edges;
    return Pass;
  }

  /** Signs the promoted images at their production references; the first
      signing error ends the batch, and signatures already written stay. */
  method SignImages(signer: Gateway, edges: seq<PromotionEdge>) returns (err: Outcome)
    modifies signer
    ensures err == SignAll(signer.faults, old(signer.signed), edges).outcome
    ensures signer.signed == SignAll(signer.faults, old(signer.signed), edges).signed
    ensures signer.log == old(signer.log) + SignAll(signer.faults, old(signer.signed), edges).trace
  {
    for i := 0 to |edges|
      invariant SignAll(signer.faults, old(signer.signed), edges[..i]).outcome == Pass
      invariant signer.signed == SignAll(signer.faults, old(signer.signed), edges[..i]).signed
      invariant signer.log == old(signer.log) + SignAll(signer.faults, old(signer.signed), edges[..i]).trace
    {
      assert edges[..i + 1][..i] == edges[..i];
      var imageRef := DstRef(edges[i]);
      var signed := signer.SignImage(imageRef);
      if signed.Err? {
        SigningFailureIsFinal(signer.faults, old(signer.signed), edges, i + 1);
        return Fail(SigningImage(imageRef));
      }
    }
    assert edges[..|edges|] == edges;
    return Pass;
  }

  /** Placeholder for attaching SBOMs to the promoted images: it does no
      work, touches no signer or registry, and never fails. */
  function WriteSBOMs(edges: seq<PromotionEdge>): (err: Outcome)
    ensures err == Pass
  {
    Pass
  }
}
