/** The signer gateway: the external service that tells whether an image
    reference carries a signature, verifies it, and writes new signatures.
    Its cryptography and registry transport are not modelled; what is
    modelled is what the batch logic can observe of it: its replies, the
    signatures present in the registry, and the calls it receives. */
module Signer {

  /** A gateway reply: a value, or an error (transport failure, missing
      credentials, invalid signature, ...). */
  datatype Reply<T> = Ok(value: T) | Err

  /** A call received by the gateway, with the reference it was given. */
  datatype Call =
    | IsSignedCall(ref: string)
    | VerifyCall(ref: string)
    | SignCall(ref: string)

  /** The references on which each gateway operation fails. A reference
      in verifyFails carries a signature that does not verify. */
  datatype Faults = Faults(
    checkFails: set<string>,
    verifyFails: set<string>,
    signFails: set<string>)

  /** Reply to "is this reference signed?" with the registry holding
      signatures for exactly the references in `signed`. */
  function IsSignedReply(faults: Faults, signed: set<string>, ref: string): Reply<bool>
  {
    if ref in faults.checkFails then Err else Ok(ref in signed)
  }

  /** Reply to "verify this reference". The batch logic only asks after
      the reference was reported signed. */
  function VerifyReply(faults: Faults, signed: set<string>, ref: string): Reply<()>
  {
    if ref !in faults.verifyFails then Ok(()) else Err
  }

  /** Reply to "sign this reference". */
  function SignReply(faults: Faults, ref: string): Reply<()>
  {
    if ref in faults.signFails then Err else Ok(())
  }

  /** A signer instance bound to a registry. `signed` is the set of
      references that carry signature material in the registry; `log`
      records, in order, every call the signer has received. */
  class Gateway {
    const faults: Faults
    var signed: set<string>
    ghost var log: seq<Call>

    constructor (faults: Faults, signed: set<string>)
      ensures this.faults == faults && this.signed == signed && log == []
    {
      this.faults := faults;
      this.signed := signed;
      log := [];
    }

    method IsImageSigned(ref: string) returns (reply: Reply<bool>)
      modifies this`log
      ensures reply == IsSignedReply(faults, signed, ref)
      ensures log == old(log) + [IsSignedCall(ref)]
    {
      reply := if ref in faults.checkFails then Err else Ok(ref in signed);
      log := log + [IsSignedCall(ref)];
    }

    method VerifyImage(ref: string) returns (reply: Reply<()>)
      modifies this`log
      ensures reply == VerifyReply(faults, signed, ref)
      ensures log == old(log) + [VerifyCall(ref)]
    {
      reply := if ref !in faults.verifyFails then Ok(()) else Err;
      log := log + [VerifyCall(ref)];
    }

    /** Writes a signature for `ref` to the registry unless the backend
        fails; signatures already written are never removed. */
    method SignImage(ref: string) returns (reply: Reply<()>)
      modifies this
      ensures reply == SignReply(faults, ref)
      ensures signed == if reply.Ok? then old(signed) + {ref} else old(signed)
      ensures log == old(log) + [SignCall(ref)]
    {
      if ref in faults.signFails {
        reply := Err;
      } else {
        reply := Ok(());
        signed := signed + {ref};
      }
      log := log + [SignCall(ref)];
    }
  }
}
