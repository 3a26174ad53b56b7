/** The `plonk-composite` wrapper: the age-range circuit proved with halo2's
    own KZG/SHPLONK prover. Its inputs arrive as strings and leave, with the
    public inputs, as bytes; the checks are those of the `composite` crate,
    verification is total, and there is no arity check. */
module PlonkComposite {
  import opened Bytes
  import opened Results
  import opened Field
  import opened Inputs
  import opened Halo2
  import opened AgeRange

  /** KZG parameters and keys as loaded; their content is not modelled. */
  type ParamsKzg(==)
  type ProvingKey(==)
  type VerifyingKey(==)

  /** The serialization collaborators at their boundary:
      `deserialize_circuit_inputs` (strings to field elements) and bincode of
      `InputsSerializationWrapper` in both directions. */
  datatype Codec = Codec(
    deserializeInputs: map<string, seq<string>> -> Result<map<string, seq<Fr>>>,
    serialize: seq<Fr> -> Result<seq<Byte>>,
    deserialize: seq<Byte> -> Result<seq<Fr>>)

  /** Decoding what was encoded gives back the same ordered vector. */
  ghost predicate RoundTrips(codec: Codec)
  {
    forall v :: codec.serialize(v).Ok? ==> codec.deserialize(codec.serialize(v).value) == Ok(v)
  }

  /** halo2's `create_proof` and `verify_proof` for one circuit with one
      instance column (`&[&[&public_inputs]]`), with a log of the calls. */
  class Halo2Kzg {
    const createProof: (ParamsKzg, ProvingKey, AgeRangeCircuit, seq<Fr>) -> Result<seq<Byte>>
    const verifyProof: (ParamsKzg, VerifyingKey, seq<Fr>, seq<Byte>) -> Result<()>
    var proveCalls: seq<(AgeRangeCircuit, seq<Fr>)>
    var verifyCalls: seq<(seq<Fr>, seq<Byte>)>

    constructor (createProof: (ParamsKzg, ProvingKey, AgeRangeCircuit, seq<Fr>) -> Result<seq<Byte>>,
                 verifyProof: (ParamsKzg, VerifyingKey, seq<Fr>, seq<Byte>) -> Result<()>)
      ensures this.createProof == createProof && this.verifyProof == verifyProof
      ensures proveCalls == [] && verifyCalls == []
    {
      this.createProof, this.verifyProof := createProof, verifyProof;
      proveCalls, verifyCalls := [], [];
    }

    method CreateProof(params: ParamsKzg, pk: ProvingKey, circuit: AgeRangeCircuit, publicInputs: seq<Fr>)
      returns (r: Result<seq<Byte>>)
      modifies this
      ensures r == createProof(params, pk, circuit, publicInputs)
      ensures proveCalls == old(proveCalls) + [(circuit, publicInputs)] && verifyCalls == old(verifyCalls)
    {
      r := createProof(params, pk, circuit, publicInputs);
      proveCalls := proveCalls + [(circuit, publicInputs)];
    }

    method VerifyProof(params: ParamsKzg, vk: VerifyingKey, publicInputs: seq<Fr>, proof: seq<Byte>)
      returns (r: Result<()>)
      modifies this
      ensures r == verifyProof(params, vk, publicInputs, proof)
      ensures verifyCalls == old(verifyCalls) + [(publicInputs, proof)] && proveCalls == old(proveCalls)
    {
      r := verifyProof(params, vk, publicInputs, proof);
      verifyCalls := verifyCalls + [(publicInputs, proof)];
    }
  }

  /** What `expect` panics with when the prover fails. */
  function ProverPanic(e: string): string
  {
    "prover should not fail: " + e
  }

  /** `generate_halo2_proof` on pure values: it never returns an error; it
      returns its public inputs unchanged, or aborts. */
  function GenerateHalo2ProofSpec(createProof: (ParamsKzg, ProvingKey, AgeRangeCircuit, seq<Fr>) -> Result<seq<Byte>>,
                                  params: ParamsKzg, pk: ProvingKey, circuit: AgeRangeCircuit, publicInputs: seq<Fr>)
    : (r: Run<Result<(seq<Byte>, seq<Fr>)>>)
    ensures r.Completed? <==> createProof(params, pk, circuit, publicInputs).Ok?
    ensures r.Completed? ==> r.value.Ok? && r.value.value.1 == publicInputs
    ensures r.Completed? ==> r.value.value.0 == createProof(params, pk, circuit, publicInputs).value
    ensures r.Panicked? ==> r.message == ProverPanic(createProof(params, pk, circuit, publicInputs).error)
  {
    var proof := createProof(params, pk, circuit, publicInputs);
    if proof.Err? then Panicked(ProverPanic(proof.error)) else Completed(Ok((proof.value, publicInputs)))
  }

  /** `generate_halo2_proof`: a fresh Blake2b transcript, `create_proof`, and
      the finalized transcript as the proof. */
  method GenerateHalo2Proof(h: Halo2Kzg, params: ParamsKzg, pk: ProvingKey, circuit: AgeRangeCircuit, publicInputs: seq<Fr>)
    returns (r: Run<Result<(seq<Byte>, seq<Fr>)>>)
    modifies h
    ensures r == GenerateHalo2ProofSpec(h.createProof, params, pk, circuit, publicInputs)
    ensures h.proveCalls == old(h.proveCalls) + [(circuit, publicInputs)] && h.verifyCalls == old(h.verifyCalls)
  {
    var proof := h.CreateProof(params, pk, circuit, publicInputs);
    if proof.Err? {
      return Panicked(ProverPanic(proof.error));
    }
    r := Completed(Ok((proof.value, publicInputs)));
  }

  /** `verify_halo2_proof` on pure values: always `Ok`, carrying whether the
      halo2 verifier accepted. */
  function VerifyHalo2ProofSpec(verifyProof: (ParamsKzg, VerifyingKey, seq<Fr>, seq<Byte>) -> Result<()>,
                                params: ParamsKzg, vk: VerifyingKey, proof: seq<Byte>, publicInputs: seq<Fr>)
    : (r: Result<bool>)
    ensures r.Ok?
    ensures r.value <==> verifyProof(params, vk, publicInputs, proof).Ok?
  {
    Ok(verifyProof(params, vk, publicInputs, proof).Ok?)
  }

  /** `verify_halo2_proof`: a Blake2b transcript over the proof, `verify_proof`
      with a single strategy, and `.is_ok()`. */
  method VerifyHalo2Proof(h: Halo2Kzg, params: ParamsKzg, vk: VerifyingKey, proof: seq<Byte>, publicInputs: seq<Fr>)
    returns (r: Result<bool>)
    modifies h
    ensures r == VerifyHalo2ProofSpec(h.verifyProof, params, vk, proof, publicInputs)
    ensures h.verifyCalls == old(h.verifyCalls) + [(publicInputs, proof)] && h.proveCalls == old(h.proveCalls)
  {
    var result := h.VerifyProof(params, vk, publicInputs, proof);
    r := Ok(result.Ok?);
  }

  /** The extraction of age, min_age, max_age, study_id from the decoded map,
      in that order, with this crate's messages. It is `AgeRange.Extract`
      with other texts, as the crate repeats the `composite` extraction with
      its own messages; the shared step is `Inputs.FirstInput`. */
  function ExtractDecoded(decoded: map<string, seq<Fr>>): (r: Result<(Fr, Fr, Fr, Fr)>)
    ensures r.Ok? <==> AllPresent(decoded)
    ensures r.Ok? ==> r.value == (decoded["age"][0], decoded["min_age"][0], decoded["max_age"][0], decoded["study_id"][0])
  {
    var age :- FirstInput(decoded, "age", "Missing 'age' input", "Invalid 'age' value");
    var minAge :- FirstInput(decoded, "min_age", "Missing 'min_age' input", "Invalid 'min_age' value");
    var maxAge :- FirstInput(decoded, "max_age", "Missing 'max_age' input", "Invalid 'max_age' value");
    var studyId :- FirstInput(decoded, "study_id", "Missing 'study_id' input", "Invalid 'study_id' value");
    Ok((age, minAge, maxAge, studyId))
  }

  /** Everything `prove_with_params` does before the prover: decode the
      inputs, extract, truncate with `field_to_u64`, check the range, and
      build the circuit with its public inputs `[min_age, max_age, study_id]`. */
  function Prepare(codec: Codec, input: map<string, seq<string>>): (r: Result<(AgeRangeCircuit, seq<Fr>)>)
    ensures codec.deserializeInputs(input).Err? ==>
      r == Err("Failed to deserialize inputs: " + codec.deserializeInputs(input).error)
    ensures codec.deserializeInputs(input).Ok? && ExtractDecoded(codec.deserializeInputs(input).value).Err? ==>
      r == Err(ExtractDecoded(codec.deserializeInputs(input).value).error)
    ensures r.Ok? ==> codec.deserializeInputs(input).Ok? && AllPresent(codec.deserializeInputs(input).value)
    ensures r.Ok? ==> r.value.1 == Instances(r.value.0)[0]
  {
    var decoded := codec.deserializeInputs(input);
    if decoded.Err? then Err("Failed to deserialize inputs: " + decoded.error)
    else
      var (age, minAge, maxAge, studyId) :- ExtractDecoded(decoded.value);
      // field_to_u64 cannot fail on a 32-byte representation
      FieldToU64Low(age);
      FieldToU64Low(minAge);
      FieldToU64Low(maxAge);
      var ok :- ValidateAgeRange(ToU64(Repr(age)).value, ToU64(Repr(minAge)).value, ToU64(Repr(maxAge)).value);
      Ok((AgeRangeCircuit(Known(age), minAge, maxAge, studyId), [minAge, maxAge, studyId]))
  }

  /** The outcome of the checks on decoded inputs is that of the `composite`
      crate: the same extraction failures (with other texts), the same range
      check on the low 64 bits, the same circuit. */
  lemma {:induction false} PrepareMatchesComposite(codec: Codec, input: map<string, seq<string>>)
    requires codec.deserializeInputs(input).Ok?
    ensures Prepare(codec, input).Ok? == BuildCircuit(codec.deserializeInputs(input).value).Ok?
    ensures Prepare(codec, input).Ok? ==> Prepare(codec, input).value.0 == BuildCircuit(codec.deserializeInputs(input).value).value
    ensures AllPresent(codec.deserializeInputs(input).value) ==>
      Prepare(codec, input) == match BuildCircuit(codec.deserializeInputs(input).value)
                               case Ok(c) => Ok((c, Instances(c)[0]))
                               case Err(e) => Err(e)
  {
    var decoded := codec.deserializeInputs(input).value;
    if AllPresent(decoded) {
      RangeCheckDecides(decoded);
      FieldToU64Low(decoded["age"][0]);
      FieldToU64Low(decoded["min_age"][0]);
      FieldToU64Low(decoded["max_age"][0]);
    }
  }

  /** The first key, in the order age, min_age, max_age, study_id, that is
      absent or empty decides the error. */
  lemma ExtractionOrder(decoded: map<string, seq<Fr>>)
    ensures "age" !in decoded ==> ExtractDecoded(decoded) == Err("Missing 'age' input")
    ensures ("age" in decoded && decoded["age"] == []) ==> ExtractDecoded(decoded) == Err("Invalid 'age' value")
    ensures (Present(decoded, "age") && "min_age" !in decoded) ==> ExtractDecoded(decoded) == Err("Missing 'min_age' input")
    ensures (Present(decoded, "age") && "min_age" in decoded && decoded["min_age"] == []) ==>
      ExtractDecoded(decoded) == Err("Invalid 'min_age' value")
    ensures (Present(decoded, "age") && Present(decoded, "min_age") && "max_age" !in decoded) ==>
      ExtractDecoded(decoded) == Err("Missing 'max_age' input")
    ensures (Present(decoded, "age") && Present(decoded, "min_age") && "max_age" in decoded && decoded["max_age"] == []) ==>
      ExtractDecoded(decoded) == Err("Invalid 'max_age' value")
    ensures (Present(decoded, "age") && Present(decoded, "min_age") && Present(decoded, "max_age") && "study_id" !in decoded) ==>
      ExtractDecoded(decoded) == Err("Missing 'study_id' input")
    ensures (Present(decoded, "age") && Present(decoded, "min_age") && Present(decoded, "max_age") &&
             "study_id" in decoded && decoded["study_id"] == []) ==> ExtractDecoded(decoded) == Err("Invalid 'study_id' value")
  {
  }

  /** `prove_with_params` on pure values. */
  function ProveWithParamsSpec(createProof: (ParamsKzg, ProvingKey, AgeRangeCircuit, seq<Fr>) -> Result<seq<Byte>>,
                               codec: Codec, params: ParamsKzg, pk: ProvingKey, input: map<string, seq<string>>)
    : (r: Run<Result<(seq<Byte>, seq<Byte>)>>)
    ensures Prepare(codec, input).Err? ==> r == Completed(Err(Prepare(codec, input).error))
    ensures r.Panicked? <==>
      Prepare(codec, input).Ok? && createProof(params, pk, Prepare(codec, input).value.0, Prepare(codec, input).value.1).Err?
    ensures r.Panicked? ==>
      r.message == ProverPanic(createProof(params, pk, Prepare(codec, input).value.0, Prepare(codec, input).value.1).error)
    ensures Prepare(codec, input).Ok? && createProof(params, pk, Prepare(codec, input).value.0, Prepare(codec, input).value.1).Ok? ==>
      r == if codec.serialize(Prepare(codec, input).value.1).Err?
           then Completed(Err("Serialization failed: " + codec.serialize(Prepare(codec, input).value.1).error))
           else Completed(Ok((createProof(params, pk, Prepare(codec, input).value.0, Prepare(codec, input).value.1).value,
                              codec.serialize(Prepare(codec, input).value.1).value)))
    ensures r.Completed? && r.value.Ok? ==>
      Prepare(codec, input).Ok? && codec.serialize(Prepare(codec, input).value.1) == Ok(r.value.value.1)
  {
    match Prepare(codec, input)
    case Err(e) => Completed(Err(e))
    case Ok((circuit, publicInputs)) =>
      match GenerateHalo2ProofSpec(createProof, params, pk, circuit, publicInputs)
      case Panicked(m) => Panicked(m)
      case Completed(proved) =>
        var (proof, unserialized) := proved.value;
        var bytes := codec.serialize(unserialized);
        if bytes.Err? then Completed(Err("Serialization failed: " + bytes.error))
        else Completed(Ok((proof, bytes.value)))
  }

  /** `prove_with_params`: the prover is reached exactly when the checks
      pass, and is then handed the circuit and `[min_age, max_age, study_id]`. */
  method ProveWithParams(h: Halo2Kzg, codec: Codec, params: ParamsKzg, pk: ProvingKey, input: map<string, seq<string>>)
    returns (r: Run<Result<(seq<Byte>, seq<Byte>)>>)
    modifies h
    ensures r == ProveWithParamsSpec(h.createProof, codec, params, pk, input)
    ensures h.proveCalls == old(h.proveCalls) + (if Prepare(codec, input).Ok? then [Prepare(codec, input).value] else [])
    ensures h.verifyCalls == old(h.verifyCalls)
  {
    var decoded := codec.deserializeInputs(input);
    if decoded.Err? {
      return Completed(Err("Failed to deserialize inputs: " + decoded.error));
    }
    var inputs := decoded.value;
    var age := FirstInput(inputs, "age", "Missing 'age' input", "Invalid 'age' value");
    if age.Err? {
      return Completed(Err(age.error));
    }
    var minAge := FirstInput(inputs, "min_age", "Missing 'min_age' input", "Invalid 'min_age' value");
    if minAge.Err? {
      return Completed(Err(minAge.error));
    }
    var maxAge := FirstInput(inputs, "max_age", "Missing 'max_age' input", "Invalid 'max_age' value");
    if maxAge.Err? {
      return Completed(Err(maxAge.error));
    }
    var studyId := FirstInput(inputs, "study_id", "Missing 'study_id' input", "Invalid 'study_id' value");
    if studyId.Err? {
      return Completed(Err(studyId.error));
    }
    var ageU := FieldToU64(Repr(age.value));
    var minU := FieldToU64(Repr(minAge.value));
    var maxU := FieldToU64(Repr(maxAge.value));
    // the `?` after each field_to_u64 never fires: a representation has 32 bytes
    FieldToU64Low(age.value);
    FieldToU64Low(minAge.value);
    FieldToU64Low(maxAge.value);
    var valid := ValidateAgeRange(ageU.value, minU.value, maxU.value);
    if valid.Err? {
      return Completed(Err(valid.error));
    }
    var circuit := AgeRangeCircuit(Known(age.value), minAge.value, maxAge.value, studyId.value);
    var publicInputs := [minAge.value, maxAge.value, studyId.value];
    var proved := GenerateHalo2Proof(h, params, pk, circuit, publicInputs);
    if proved.Panicked? {
      return proved;
    }
    var (proof, unserialized) := proved.value.value;
    var bytes := codec.serialize(unserialized);
    if bytes.Err? {
      return Completed(Err("Serialization failed: " + bytes.error));
    }
    r := Completed(Ok((proof, bytes.value)));
  }

  /** `verify_with_params` on pure values: an error only when the public-input
      bytes do not decode; any decoded vector, of any length, goes to the
      verifier. */
  function VerifyWithParamsSpec(verifyProof: (ParamsKzg, VerifyingKey, seq<Fr>, seq<Byte>) -> Result<()>,
                                codec: Codec, params: ParamsKzg, vk: VerifyingKey, proof: seq<Byte>, publicInputs: seq<Byte>)
    : (r: Result<bool>)
    ensures r.Err? <==> codec.deserialize(publicInputs).Err?
    ensures r.Err? ==> r.error == codec.deserialize(publicInputs).error
    ensures r.Ok? ==> (r.value <==> verifyProof(params, vk, codec.deserialize(publicInputs).value, proof).Ok?)
  {
    var decoded :- codec.deserialize(publicInputs);
    VerifyHalo2ProofSpec(verifyProof, params, vk, proof, decoded)
  }

  /** `verify_with_params`. */
  method VerifyWithParams(h: Halo2Kzg, codec: Codec, params: ParamsKzg, vk: VerifyingKey, proof: seq<Byte>, publicInputs: seq<Byte>)
    returns (r: Result<bool>)
    modifies h
    ensures r == VerifyWithParamsSpec(h.verifyProof, codec, params, vk, proof, publicInputs)
    ensures h.verifyCalls == old(h.verifyCalls) +
      (if codec.deserialize(publicInputs).Ok? then [(codec.deserialize(publicInputs).value, proof)] else [])
    ensures h.proveCalls == old(h.proveCalls)
  {
    var decoded := codec.deserialize(publicInputs);
    if decoded.Err? {
      return Err(decoded.error);
    }
    r := VerifyHalo2Proof(h, params, vk, proof, decoded.value);
  }

  /** The halo2 verifier accepts every proof its prover produced, against the
      public inputs it was produced for. */
  ghost predicate Complete(createProof: (ParamsKzg, ProvingKey, AgeRangeCircuit, seq<Fr>) -> Result<seq<Byte>>,
                           verifyProof: (ParamsKzg, VerifyingKey, seq<Fr>, seq<Byte>) -> Result<()>,
                           params: ParamsKzg, pk: ProvingKey, vk: VerifyingKey)
  {
    forall c, v :: createProof(params, pk, c, v).Ok? ==> verifyProof(params, vk, v, createProof(params, pk, c, v).value).Ok?
  }

  /** With a round-tripping codec, the public-input bytes `prove_with_params`
      emits decode to exactly `[min_age, max_age, study_id]` of its decoded
      inputs. */
  lemma EmittedInputsDecode(createProof: (ParamsKzg, ProvingKey, AgeRangeCircuit, seq<Fr>) -> Result<seq<Byte>>,
                            codec: Codec, params: ParamsKzg, pk: ProvingKey, input: map<string, seq<string>>)
    requires RoundTrips(codec)
    requires ProveWithParamsSpec(createProof, codec, params, pk, input).Completed?
    requires ProveWithParamsSpec(createProof, codec, params, pk, input).value.Ok?
    ensures codec.deserializeInputs(input).Ok?
    ensures var decoded := codec.deserializeInputs(input).value;
      AllPresent(decoded) &&
      codec.deserialize(ProveWithParamsSpec(createProof, codec, params, pk, input).value.value.1)
        == Ok([decoded["min_age"][0], decoded["max_age"][0], decoded["study_id"][0]])
  {
    var v := Prepare(codec, input).value.1;
    assert codec.serialize(v).Ok?;
  }

  /** End to end: with a round-tripping codec and a complete prover/verifier
      pair, what `prove_with_params` emits is accepted by `verify_with_params`. */
  lemma ProvedThenVerified(createProof: (ParamsKzg, ProvingKey, AgeRangeCircuit, seq<Fr>) -> Result<seq<Byte>>,
                           verifyProof: (ParamsKzg, VerifyingKey, seq<Fr>, seq<Byte>) -> Result<()>,
                           codec: Codec, params: ParamsKzg, pk: ProvingKey, vk: VerifyingKey,
                           input: map<string, seq<string>>)
    requires RoundTrips(codec) && Complete(createProof, verifyProof, params, pk, vk)
    requires ProveWithParamsSpec(createProof, codec, params, pk, input).Completed?
    requires ProveWithParamsSpec(createProof, codec, params, pk, input).value.Ok?
    ensures var (proof, bytes) := ProveWithParamsSpec(createProof, codec, params, pk, input).value.value;
      VerifyWithParamsSpec(verifyProof, codec, params, vk, proof, bytes) == Ok(true)
  {
    var (circuit, v) := Prepare(codec, input).value;
    assert createProof(params, pk, circuit, v).Ok?;
    assert codec.serialize(v).Ok?;
  }
}
