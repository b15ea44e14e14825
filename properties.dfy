/** What the batch operations of module Promoter promise, for every
    signer state and every order of the edges. */
module Properties {
  import opened Refs
  import opened Signer
  import opened Promoter

  /** The staging references of a batch. */
  function SrcRefs(edges: seq<PromotionEdge>): set<string>
  {
    set e | e in edges :: SrcRef(e)
  }

  /** The production references of a batch. */
  function DstRefs(edges: seq<PromotionEdge>): set<string>
  {
    set e | e in edges :: DstRef(e)
  }

  /** One is-signed call per edge, on its staging reference, in order. */
  function CheckCalls(edges: seq<PromotionEdge>): seq<Call>
  {
    if edges == [] then []
    else CheckCalls(edges[..|edges| - 1]) + [IsSignedCall(SrcRef(edges[|edges| - 1]))]
  }

  /** One sign call per edge, on its production reference, in order. */
  function SignCalls(edges: seq<PromotionEdge>): seq<Call>
  {
    if edges == [] then []
    else SignCalls(edges[..|edges| - 1]) + [SignCall(DstRef(edges[|edges| - 1]))]
  }

  lemma MembersOfLast<T>(s: seq<T>)
    requires s != []
    ensures forall x :: x in s <==> x in s[..|s| - 1] || x == s[|s| - 1]
  {
  }

  // ---------------------------------------------------------------------
  // Staging signature validation

  /** Validation returns nil exactly when every edge's is-signed check
      succeeds and every signed edge verifies; in particular for no edges. */
  lemma {:induction false} ValidationSucceedsIff(
    faults: Faults, signed: set<string>, edges: seq<PromotionEdge>)
    ensures Validate(faults, signed, edges).outcome == Pass
        <==> forall e | e in edges :: RefPasses(faults, signed, SrcRef(e))
  {
    if edges != [] {
      ValidationSucceedsIff(faults, signed, edges[..|edges| - 1]);
      MembersOfLast(edges);
    }
  }

  /** The error validation returns comes from the first failing edge and
      names its staging reference: a failing is-signed check, or else a
      failing verification. The calls made are those for the edges before
      it and for it, and none for any edge after it. */
  lemma ValidationStopsAtFirstFailure(
    faults: Faults, signed: set<string>, edges: seq<PromotionEdge>, k: nat)
    requires k < |edges|
    requires forall i | 0 <= i < k :: RefPasses(faults, signed, SrcRef(edges[i]))
    requires !RefPasses(faults, signed, SrcRef(edges[k]))
    ensures var ref := SrcRef(edges[k]);
            Validate(faults, signed, edges).outcome
              == Fail(if IsSignedReply(faults, signed, ref).Err?
                      then CheckingSigned(ref) else VerifyingSignatures(ref))
    ensures Validate(faults, signed, edges).trace
         == Validate(faults, signed, edges[..k]).trace
            + ValidateRef(faults, signed, SrcRef(edges[k])).trace
  {
    ValidationSucceedsIff(faults, signed, edges[..k]);
    assert edges[..k + 1][..k] == edges[..k];
    ValidationFailureIsFinal(faults, signed, edges, k + 1);
  }

  /** Validation asks the signer only about staging references of the
      batch, and never signs anything. */
  lemma {:induction false} ValidationUsesSourceRefs(
    faults: Faults, signed: set<string>, edges: seq<PromotionEdge>)
    ensures forall c | c in Validate(faults, signed, edges).trace ::
              !c.SignCall? && c.ref in SrcRefs(edges)
  {
    if edges != [] {
      var init := edges[..|edges| - 1];
      ValidationUsesSourceRefs(faults, signed, init);
      MembersOfLast(edges);
      assert SrcRefs(init) <= SrcRefs(edges);
    }
  }

  /** A reference is verified only after the signer reported it signed:
      unsigned images are skipped without verification. */
  lemma {:induction false} UnsignedImagesAreNotVerified(
    faults: Faults, signed: set<string>, edges: seq<PromotionEdge>)
    ensures forall c | c in Validate(faults, signed, edges).trace && c.VerifyCall? ::
              IsSignedReply(faults, signed, c.ref) == Ok(true)
  {
    if edges != [] {
      UnsignedImagesAreNotVerified(faults, signed, edges[..|edges| - 1]);
    }
  }

  /** Conversely, in a batch that validates, every image the signer
      reported signed was verified. */
  lemma {:induction false} SignedImagesAreVerified(
    faults: Faults, signed: set<string>, edges: seq<PromotionEdge>)
    requires Validate(faults, signed, edges).outcome.Pass?
    ensures forall e | e in edges && IsSignedReply(faults, signed, SrcRef(e)) == Ok(true) ::
              VerifyCall(SrcRef(e)) in Validate(faults, signed, edges).trace
  {
    if edges != [] {
      MembersOfLast(edges);
      SignedImagesAreVerified(faults, signed, edges[..|edges| - 1]);
    }
  }

  /** A batch whose staged images are all unsigned validates, with one
      is-signed check per edge and no verification. */
  lemma {:induction false} UnsignedBatchValidates(
    faults: Faults, signed: set<string>, edges: seq<PromotionEdge>)
    requires forall e | e in edges :: IsSignedReply(faults, signed, SrcRef(e)) == Ok(false)
    ensures Validate(faults, signed, edges) == Run(Pass, signed, CheckCalls(edges))
  {
    if edges != [] {
      MembersOfLast(edges);
      UnsignedBatchValidates(faults, signed, edges[..|edges| - 1]);
    }
  }

  /** Whether validation succeeds does not depend on the iteration order
      of the edge set (which error is reported may). */
  lemma ValidationOrderIrrelevant(
    faults: Faults, signed: set<string>, edges: seq<PromotionEdge>, reordered: seq<PromotionEdge>)
    requires multiset(edges) == multiset(reordered)
    ensures Validate(faults, signed, edges).outcome.Pass?
        <==> Validate(faults, signed, reordered).outcome.Pass?
  {
    ValidationSucceedsIff(faults, signed, edges);
    ValidationSucceedsIff(faults, signed, reordered);
    assert forall e :: e in edges <==> e in multiset(edges);
    assert forall e :: e in reordered <==> e in multiset(reordered);
  }

  /** Two edges, the first unsigned and the second signed with a signature
      that does not verify: validation fails naming the second edge's
      staging reference, after checking both and verifying only the second. */
  lemma UnsignedThenInvalidScenario(
    faults: Faults, signed: set<string>, a: PromotionEdge, b: PromotionEdge)
    requires IsSignedReply(faults, signed, SrcRef(a)) == Ok(false)
    requires IsSignedReply(faults, signed, SrcRef(b)) == Ok(true)
    requires VerifyReply(faults, signed, SrcRef(b)).Err?
    ensures Validate(faults, signed, [a, b])
         == Run(Fail(VerifyingSignatures(SrcRef(b))), signed,
                [IsSignedCall(SrcRef(a)), IsSignedCall(SrcRef(b)), VerifyCall(SrcRef(b))])
  {
    assert [a, b][..1] == [a] && [a][..0] == [];
    assert Validate(faults, signed, [a]) == Run(Pass, signed, [IsSignedCall(SrcRef(a))]);
  }

  // ---------------------------------------------------------------------
  // Promotion signing

  /** Signing returns nil exactly when the signer signs every production
      reference; in particular for no edges. */
  lemma {:induction false} SigningSucceedsIff(
    faults: Faults, signed: set<string>, edges: seq<PromotionEdge>)
    ensures SignAll(faults, signed, edges).outcome == Pass
        <==> forall e | e in edges :: SignReply(faults, DstRef(e)).Ok?
  {
    if edges != [] {
      SigningSucceedsIff(faults, signed, edges[..|edges| - 1]);
      MembersOfLast(edges);
    }
  }

  /** A batch the signer accepts signs every production reference, one
      sign call per edge in order, and nothing else. */
  lemma {:induction false} SigningSignsEveryEdge(
    faults: Faults, signed: set<string>, edges: seq<PromotionEdge>)
    requires forall e | e in edges :: SignReply(faults, DstRef(e)).Ok?
    ensures SignAll(faults, signed, edges) == Run(Pass, signed + DstRefs(edges), SignCalls(edges))
  {
    if edges != [] {
      var init := edges[..|edges| - 1];
      MembersOfLast(edges);
      SigningSignsEveryEdge(faults, signed, init);
      assert DstRefs(edges) == DstRefs(init) + {DstRef(edges[|edges| - 1])};
    }
  }

  /** The first signing error ends the batch with an error naming that
      production reference; the edges before it stay signed, no edge after
      it is sent to the signer, and nothing is rolled back. */
  lemma SigningStopsAtFirstFailure(
    faults: Faults, signed: set<string>, edges: seq<PromotionEdge>, k: nat)
    requires k < |edges|
    requires forall i | 0 <= i < k :: SignReply(faults, DstRef(edges[i])).Ok?
    requires SignReply(faults, DstRef(edges[k])).Err?
    ensures SignAll(faults, signed, edges)
         == Run(Fail(SigningImage(DstRef(edges[k]))),
                signed + DstRefs(edges[..k]),
                SignCalls(edges[..k + 1]))
  {
    SigningSignsEveryEdge(faults, signed, edges[..k]);
    assert edges[..k + 1][..k] == edges[..k];
    SigningFailureIsFinal(faults, signed, edges, k + 1);
  }

  /** Signing only adds signatures, and only for production references of
      the batch. */
  lemma {:induction false} SigningOnlyAddsDestinationRefs(
    faults: Faults, signed: set<string>, edges: seq<PromotionEdge>)
    ensures signed <= SignAll(faults, signed, edges).signed <= signed + DstRefs(edges)
  {
    if edges != [] {
      var init := edges[..|edges| - 1];
      SigningOnlyAddsDestinationRefs(faults, signed, init);
      MembersOfLast(edges);
      assert DstRefs(init) <= DstRefs(edges);
    }
  }

  /** Whether signing succeeds, and what is signed when it does, does not
      depend on the iteration order of the edge set. */
  lemma SigningOrderIrrelevant(
    faults: Faults, signed: set<string>, edges: seq<PromotionEdge>, reordered: seq<PromotionEdge>)
    requires multiset(edges) == multiset(reordered)
    ensures SignAll(faults, signed, edges).outcome.Pass?
        <==> SignAll(faults, signed, reordered).outcome.Pass?
    ensures SignAll(faults, signed, edges).outcome.Pass?
        ==> SignAll(faults, signed, edges).signed == SignAll(faults, signed, reordered).signed
  {
    SigningSucceedsIff(faults, signed, edges);
    SigningSucceedsIff(faults, signed, reordered);
    assert forall e :: e in edges <==> e in multiset(edges);
    assert forall e :: e in reordered <==> e in multiset(reordered);
    if SignAll(faults, signed, edges).outcome.Pass? {
      SigningSignsEveryEdge(faults, signed, edges);
      SigningSignsEveryEdge(faults, signed, reordered);
      assert DstRefs(edges) == DstRefs(reordered);
    }
  }
}
