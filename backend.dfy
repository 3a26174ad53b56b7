/** The proving backend (`PlonkishBackend` of the `PlonkishComponents`
    bundle) at its boundary. Its `prove` and `verify` are uninterpreted: the
    model fixes them as functions chosen when the backend is made, and logs
    every call so that a contract can say whether the backend was reached. */
module Backend {
  import opened Bytes
  import opened Field
  import opened Results
  import opened Halo2

  /** Loaded backend parameters; their content is not modelled. */
  type ProverParam(==)
  type VerifierParam(==)

  class PlonkishBackend<C> {
    /** The proof `prove` writes into a fresh transcript, or the backend's
        error (its `{:?}` text). */
    const prove: (ProverParam, Halo2Circuit<C>) -> Result<seq<Byte>>
    /** Whether `verify` accepts a proof for the given instance columns. */
    const verify: (VerifierParam, seq<seq<Fr>>, seq<Byte>) -> Result<()>
    var proveCalls: seq<Halo2Circuit<C>>
    var verifyCalls: seq<(seq<seq<Fr>>, seq<Byte>)>

    constructor (prove: (ProverParam, Halo2Circuit<C>) -> Result<seq<Byte>>,
                 verify: (VerifierParam, seq<seq<Fr>>, seq<Byte>) -> Result<()>)
      ensures this.prove == prove && this.verify == verify
      ensures proveCalls == [] && verifyCalls == []
    {
      this.prove, this.verify := prove, verify;
      proveCalls, verifyCalls := [], [];
    }

    method Prove(pp: ProverParam, circuit: Halo2Circuit<C>) returns (r: Result<seq<Byte>>)
      modifies this
      ensures r == prove(pp, circuit)
      ensures proveCalls == old(proveCalls) + [circuit] && verifyCalls == old(verifyCalls)
    {
      r := prove(pp, circuit);
      proveCalls := proveCalls + [circuit];
    }

    method Verify(vp: VerifierParam, instances: seq<seq<Fr>>, proof: seq<Byte>) returns (r: Result<()>)
      modifies this
      ensures r == verify(vp, instances, proof)
      ensures verifyCalls == old(verifyCalls) + [(instances, proof)] && proveCalls == old(proveCalls)
    {
      r := verify(vp, instances, proof);
      verifyCalls := verifyCalls + [(instances, proof)];
    }
  }
}
