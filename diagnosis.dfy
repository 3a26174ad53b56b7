/** The diagnosis-membership circuit of the `diagnosis` crate: the byte-sum
    code hash, the off-circuit membership check, and the pipeline that
    compares two hashes on their low 64 bits before the backend is asked for
    a proof with public inputs `[required_hash, study_id]`. */
module Diagnosis {
  import opened Bytes
  import opened Text
  import opened Results
  import opened Field
  import opened Halo2
  import opened Backend
  import opened Inputs

  /** `k`: the circuit has 2^4 rows. */
  const K: nat := 4

  const ArityError: string := "Invalid number of public inputs (expected 2: required_hash, study_id)"

  /** `DiagnosisMembershipConfig`: two advice columns, a selector and an
      instance column. */
  datatype DiagnosisConfig = DiagnosisConfig(diagnosisHash: nat, requiredHash: nat, selector: nat, instance: nat)

  /** `DiagnosisMembershipCircuit`: private `diagnosis_hash`; public
      `required_hash`, `study_id`. */
  datatype DiagnosisCircuit = DiagnosisCircuit(diagnosisHash: Value<Fr>, requiredHash: Fr, studyId: Fr)

  function Default(): DiagnosisCircuit
  {
    DiagnosisCircuit(Unknown, 0, 0)
  }

  /** `without_witnesses`: the default circuit, which knows no hash and
      declares all-zero public inputs. */
  function WithoutWitnesses(c: DiagnosisCircuit): (r: DiagnosisCircuit)
    ensures r.diagnosisHash == Unknown
    ensures Instances(r) == [[0, 0]]
  {
    Default()
  }

  /** `instances`: one instance column holding required_hash, study_id. */
  function Instances(c: DiagnosisCircuit): (r: seq<seq<Fr>>)
    ensures |r| == 1 && |r[0]| == 2
    ensures r[0][0] == c.requiredHash && r[0][1] == c.studyId
  {
    [[c.requiredHash, c.studyId]]
  }

  /** The "diagnosis membership" gate, `s * (d - d)`; the required hash is
      queried but not used. */
  function MembershipGate(config: DiagnosisConfig): (g: Gate)
    ensures g.name == "diagnosis membership" && |g.polys| == 1
    ensures forall row :: Satisfies([g], row)
  {
    SelfDifferenceAlwaysVanishes("diagnosis membership", config.selector, config.diagnosisHash);
    SelfDifferenceGate("diagnosis membership", config.selector, config.diagnosisHash)
  }

  /** The public inputs are fixed by the circuit's public fields alone: the
      private hash never reaches the instance column. */
  lemma InstancesIgnoreWitness(c: DiagnosisCircuit, diagnosisHash: Value<Fr>)
    ensures Instances(c.(diagnosisHash := diagnosisHash)) == Instances(c)
    ensures Instances(c) == Instances(WithoutWitnesses(c)) <==> c.requiredHash == 0 && c.studyId == 0
  {
  }

  /** `configure`. */
  method Configure(meta: ConstraintSystem) returns (config: DiagnosisConfig)
    modifies meta
    ensures config == DiagnosisConfig(old(meta.numAdvice), old(meta.numAdvice) + 1, old(meta.numSelectors), old(meta.numInstance))
    ensures meta.numAdvice == old(meta.numAdvice) + 2
    ensures meta.numSelectors == old(meta.numSelectors) + 1
    ensures meta.numInstance == old(meta.numInstance) + 1
    ensures meta.equality == old(meta.equality) + {Advice(config.diagnosisHash), Advice(config.requiredHash), Instance(config.instance)}
    ensures meta.gates == old(meta.gates) + [MembershipGate(config)]
  {
    var diagnosisHash := meta.AdviceColumn();
    var requiredHash := meta.AdviceColumn();
    var selector := meta.NewSelector();
    var instance := meta.InstanceColumn();
    meta.EnableEquality(Advice(diagnosisHash));
    meta.EnableEquality(Advice(requiredHash));
    meta.EnableEquality(Instance(instance));
    config := DiagnosisConfig(diagnosisHash, requiredHash, selector, instance);
    meta.CreateGate(MembershipGate(config));
  }

  /** The gate holds on every row: it does not tie the diagnosis hash to the
      required hash, nor to any set of diagnoses. */
  lemma MembershipGateTrivial(config: DiagnosisConfig, row: Row)
    ensures Satisfies([MembershipGate(config)], row)
  {
    SelfDifferenceVanishes("diagnosis membership", config.selector, config.diagnosisHash, row);
  }

  /** The row-0 cells `synthesize` assigns. */
  function Row0Cells(c: DiagnosisCircuit, config: DiagnosisConfig): map<(Column, nat), Value<Fr>>
  {
    map[(Advice(config.diagnosisHash), 0) := c.diagnosisHash][(Advice(config.requiredHash), 0) := Known(c.requiredHash)]
  }

  /** Only the two advice cells at row 0 are laid out; study_id is in no cell. */
  lemma Row0Layout(c: DiagnosisCircuit, config: DiagnosisConfig, studyId: Fr)
    ensures forall key :: key in Row0Cells(c, config) ==>
      key.1 == 0 && key.0.Advice? && key.0.index in {config.diagnosisHash, config.requiredHash}
    ensures Row0Cells(c.(studyId := studyId), config) == Row0Cells(c, config)
  {
  }

  /** `synthesize`: enable the selector at row 0 and assign the two hashes at
      row 0. */
  method Synthesize(c: DiagnosisCircuit, config: DiagnosisConfig, region: Region)
    modifies region
    ensures region.enabled == old(region.enabled) + {(config.selector, 0)}
    ensures region.cells == old(region.cells) + Row0Cells(c, config)
  {
    region.EnableSelector(config.selector, 0);
    region.AssignAdvice(config.diagnosisHash, 0, c.diagnosisHash);
    region.AssignAdvice(config.requiredHash, 0, Known(c.requiredHash));
  }

  /** The hash without the `u64` accumulator's wrap-around. */
  function CodeSum(code: string): nat
  {
    ByteSum(Utf8(code))
  }

  /** `hash_diagnosis_code`: the sum of the code's UTF-8 bytes in a `u64`
      accumulator. It never fails, and it equals the exact sum for every
      code shorter than 2^54 characters (no wrap-around can occur). */
  function HashDiagnosisCode(code: string): (r: Result<U64>)
    ensures r.Ok?
    ensures |code| < 0x40_0000_0000_0000 ==> r.value == CodeSum(code)
  {
    ByteSumBound(Utf8(code));
    Ok(CodeSum(code) % TwoTo64)
  }

  /** The hash is additive over concatenation (modulo 2^64). */
  lemma HashAppend(a: string, b: string)
    ensures HashDiagnosisCode(a + b).value == (HashDiagnosisCode(a).value + HashDiagnosisCode(b).value) % TwoTo64
  {
    Utf8Append(a, b);
    TotalAppend(Utf8(a), Utf8(b), ByteValue);
    ModAdd(CodeSum(a), CodeSum(b), TwoTo64);
  }

  function CharWeight(c: char): nat
  {
    ByteSum(EncodeChar(c))
  }

  lemma {:induction false} CodeSumByChars(s: string)
    ensures CodeSum(s) == Total(s, CharWeight)
  {
    if s != [] {
      assert s == [s[0]] + s[1..];
      assert Utf8(s) == EncodeChar(s[0]) + Utf8(s[1..]);
      TotalAppend(EncodeChar(s[0]), Utf8(s[1..]), ByteValue);
      CodeSumByChars(s[1..]);
    }
  }

  /** Reordering the bytes of a code does not change its hash, even when the
      reordering crosses character boundaries. */
  lemma HashBytePermutation(a: string, b: string)
    requires multiset(Utf8(a)) == multiset(Utf8(b))
    ensures HashDiagnosisCode(a) == HashDiagnosisCode(b)
  {
    TotalPermutation(Utf8(a), Utf8(b), ByteValue);
  }

  /** Two codes with no character in common whose UTF-8 bytes are one
      another's permutation: "\u{e9}\u{143}" is C3 A9 C5 83, "\u{c3}\u{169}" is
      C3 83 C5 A9. */
  lemma CrossCharacterCollision()
    ensures multiset("\U{E9}\U{143}") != multiset("\U{C3}\U{169}")
    ensures HashDiagnosisCode("\U{E9}\U{143}") == HashDiagnosisCode("\U{C3}\U{169}")
  {
    var a, b := "\U{E9}\U{143}", "\U{C3}\U{169}";
    assert a[0] !in multiset(b) by { assert b == ['\U{C3}', '\U{169}']; }
    assert Utf8(a) == [0xC3, 0xA9, 0xC5, 0x83] by {
      assert a == ['\U{E9}', '\U{143}'];
      assert EncodeChar('\U{E9}') == [0xC3, 0xA9];
      assert EncodeChar('\U{143}') == [0xC5, 0x83];
      assert Utf8(a) == EncodeChar(a[0]) + Utf8(a[1..]);
      assert Utf8(a[1..]) == EncodeChar(a[1]) + Utf8(a[2..]);
    }
    assert Utf8(b) == [0xC3, 0x83, 0xC5, 0xA9] by {
      assert b == ['\U{C3}', '\U{169}'];
      assert EncodeChar('\U{C3}') == [0xC3, 0x83];
      assert EncodeChar('\U{169}') == [0xC5, 0xA9];
      assert Utf8(b) == EncodeChar(b[0]) + Utf8(b[1..]);
      assert Utf8(b[1..]) == EncodeChar(b[1]) + Utf8(b[2..]);
    }
    HashBytePermutation(a, b);
  }

  /** Reordering the characters of a code does not change its hash. */
  lemma HashPermutation(a: string, b: string)
    requires multiset(a) == multiset(b)
    ensures HashDiagnosisCode(a) == HashDiagnosisCode(b)
  {
    CodeSumByChars(a);
    CodeSumByChars(b);
    TotalPermutation(a, b, CharWeight);
  }

  /** The source's test values: equal codes hash alike, "E11.9" and "I10"
      do not. */
  lemma HashExamples()
    ensures HashDiagnosisCode("E11.9") == Ok(270)
    ensures HashDiagnosisCode("I10") == Ok(170)
  {
    CodeSumByChars("E11.9");
    CodeSumByChars("I10");
    assert Total("E11.9", CharWeight) == 270 by {
      AsciiWeights();
      assert "E11.9" == ['E', '1', '1', '.', '9'];
    }
    assert Total("I10", CharWeight) == 170 by {
      AsciiWeights();
      assert "I10" == ['I', '1', '0'];
    }
  }

  lemma AsciiWeights()
    ensures CharWeight('E') == 69 && CharWeight('I') == 73 && CharWeight('.') == 46
    ensures CharWeight('0') == 48 && CharWeight('1') == 49 && CharWeight('9') == 57
  {
    AsciiEncoding('E');
    AsciiEncoding('I');
    AsciiEncoding('.');
    AsciiEncoding('0');
    AsciiEncoding('1');
    AsciiEncoding('9');
  }

  /** A collision the byte sum cannot avoid: a code and its anagram. */
  lemma HashCollision()
    ensures "I10" != "I01" && HashDiagnosisCode("I10") == HashDiagnosisCode("I01")
  {
    assert "I10"[1] != "I01"[1];
    assert multiset("I10") == multiset("I01") by {
      assert "I10" == ['I', '1', '0'];
      assert "I01" == ['I', '0', '1'];
    }
    HashPermutation("I10", "I01");
  }

  function NotMember(required: string): string
  {
    "Patient does not have required diagnosis: " + required
  }

  /** `validate_diagnosis_membership`: exact string equality against some
      entry of the list. */
  function ValidateMembership(patientDiagnoses: seq<string>, required: string): (r: Result<()>)
    ensures r.Ok? <==> exists i :: 0 <= i < |patientDiagnoses| && patientDiagnoses[i] == required
    ensures r.Err? ==> r == Err(NotMember(required))
  {
    if required !in patientDiagnoses then Err(NotMember(required)) else Ok(())
  }

  lemma MembershipExamples()
    ensures ValidateMembership(["E11.9", "I10"], "E11.9").Ok?
    ensures ValidateMembership(["E11.9", "I10"], "I10").Ok?
    ensures ValidateMembership(["E11.9"], "I10").Err?
    ensures ValidateMembership(["E11.9"], "J45") == Err(NotMember("J45"))
  {
    assert ["E11.9", "I10"][0] == "E11.9";
    assert ["E11.9", "I10"][1] == "I10";
    assert "E11.9" != "I10" by { assert "E11.9"[0] != "I10"[0]; }
    assert "E11.9" != "J45" by { assert "E11.9"[0] != "J45"[0]; }
  }

  function Mismatch(diagnosisHash: U64, requiredHash: U64): string
  {
    "Diagnosis hash " + Decimal(diagnosisHash) + " does not match required hash " + Decimal(requiredHash)
  }

  predicate AllPresent(inputs: map<string, seq<Fr>>)
  {
    Present(inputs, "diagnosis_hash") && Present(inputs, "required_hash") && Present(inputs, "study_id")
  }

  function Low(inputs: map<string, seq<Fr>>, key: string): U64
    requires Present(inputs, key)
  {
    inputs[key][0] % TwoTo64
  }

  /** The extraction of diagnosis_hash, required_hash, study_id, in that
      order. */
  function Extract(inputs: map<string, seq<Fr>>): (r: Result<(Fr, Fr, Fr)>)
    ensures r.Ok? <==> AllPresent(inputs)
    ensures r.Ok? ==> r.value == (inputs["diagnosis_hash"][0], inputs["required_hash"][0], inputs["study_id"][0])
  {
    var diagnosisHash :- FirstInput(inputs, "diagnosis_hash", "Missing diagnosis_hash", "Invalid diagnosis_hash");
    var requiredHash :- FirstInput(inputs, "required_hash", "Missing required_hash", "Invalid required_hash");
    var studyId :- FirstInput(inputs, "study_id", "Missing study_id", "Invalid study_id");
    Ok((diagnosisHash, requiredHash, studyId))
  }

  /** Everything `generate_proof` does before it builds the circuit:
      extraction of diagnosis_hash, required_hash, study_id in that order and
      the comparison of the two hashes after `field_to_u64`. */
  function BuildCircuit(inputs: map<string, seq<Fr>>): (r: Result<DiagnosisCircuit>)
    ensures Extract(inputs).Err? ==> r == Err(Extract(inputs).error)
    ensures r.Ok? ==> AllPresent(inputs)
    ensures r.Ok? ==> r.value == DiagnosisCircuit(Known(inputs["diagnosis_hash"][0]), inputs["required_hash"][0],
                                                  inputs["study_id"][0])
  {
    var (diagnosisHash, requiredHash, studyId) :- Extract(inputs);
    // field_to_u64 cannot fail on a 32-byte representation
    FieldToU64Low(diagnosisHash);
    FieldToU64Low(requiredHash);
    var d := ToU64(Repr(diagnosisHash)).value;
    var q := ToU64(Repr(requiredHash)).value;
    if d != q then Err(Mismatch(d, q))
    else Ok(DiagnosisCircuit(Known(diagnosisHash), requiredHash, studyId))
  }

  /** The first key, in the order diagnosis_hash, required_hash, study_id,
      that is absent or empty decides the error. */
  lemma ExtractionOrder(inputs: map<string, seq<Fr>>)
    ensures "diagnosis_hash" !in inputs ==> Extract(inputs) == Err("Missing diagnosis_hash")
    ensures ("diagnosis_hash" in inputs && inputs["diagnosis_hash"] == []) ==>
      Extract(inputs) == Err("Invalid diagnosis_hash")
    ensures (Present(inputs, "diagnosis_hash") && "required_hash" !in inputs) ==>
      Extract(inputs) == Err("Missing required_hash")
    ensures (Present(inputs, "diagnosis_hash") && "required_hash" in inputs && inputs["required_hash"] == []) ==>
      Extract(inputs) == Err("Invalid required_hash")
    ensures (Present(inputs, "diagnosis_hash") && Present(inputs, "required_hash") && "study_id" !in inputs) ==>
      Extract(inputs) == Err("Missing study_id")
    ensures (Present(inputs, "diagnosis_hash") && Present(inputs, "required_hash") &&
             "study_id" in inputs && inputs["study_id"] == []) ==> Extract(inputs) == Err("Invalid study_id")
  {
  }

  /** With every input present, the checks pass exactly when the two hashes
      agree on their low 64 bits; otherwise the error names both. */
  lemma {:induction false} HashMatchDecides(inputs: map<string, seq<Fr>>)
    requires AllPresent(inputs)
    ensures BuildCircuit(inputs).Ok? <==> Low(inputs, "diagnosis_hash") == Low(inputs, "required_hash")
    ensures BuildCircuit(inputs).Err? ==>
      BuildCircuit(inputs) == Err(Mismatch(Low(inputs, "diagnosis_hash"), Low(inputs, "required_hash")))
  {
    FieldToU64Low(inputs["diagnosis_hash"][0]);
    FieldToU64Low(inputs["required_hash"][0]);
  }

  lemma BuildCircuitSucceeds(inputs: map<string, seq<Fr>>)
    ensures BuildCircuit(inputs).Ok? <==>
      AllPresent(inputs) && Low(inputs, "diagnosis_hash") == Low(inputs, "required_hash")
  {
    if AllPresent(inputs) {
      HashMatchDecides(inputs);
    }
  }

  /** Two different field elements that agree below bit 64 pass the check. */
  lemma HighBitsIgnored(studyId: Fr)
    ensures BuildCircuit(map["diagnosis_hash" := [TwoTo64 + 5], "required_hash" := [5], "study_id" := [studyId]]).Ok?
  {
    var inputs := map["diagnosis_hash" := [TwoTo64 + 5], "required_hash" := [5], "study_id" := [studyId]];
    assert AllPresent(inputs);
    DivModUnique(TwoTo64 + 5, TwoTo64, 1, 5);
    assert Low(inputs, "diagnosis_hash") == 5 == Low(inputs, "required_hash");
    HashMatchDecides(inputs);
  }

  /** `generate_proof` on pure values. */
  function GenerateProofSpec(prove: (ProverParam, Halo2Circuit<DiagnosisCircuit>) -> Result<seq<Byte>>,
                             pp: ProverParam, inputs: map<string, seq<Fr>>): (r: Result<(seq<Byte>, seq<Fr>)>)
    ensures BuildCircuit(inputs).Err? ==> r == Err(BuildCircuit(inputs).error)
    ensures r.Ok? ==> BuildCircuit(inputs).Ok? && Instances(BuildCircuit(inputs).value) == [r.value.1]
    ensures r.Ok? ==> r.value.1 == [inputs["required_hash"][0], inputs["study_id"][0]]
    ensures BuildCircuit(inputs).Ok? ==>
      (r.Ok? <==> prove(pp, Halo2Circuit(K, BuildCircuit(inputs).value)).Ok?)
    ensures r.Ok? ==> r.value.0 == prove(pp, Halo2Circuit(K, BuildCircuit(inputs).value)).value
    ensures BuildCircuit(inputs).Ok? && prove(pp, Halo2Circuit(K, BuildCircuit(inputs).value)).Err? ==>
      r == Err("Proof generation failed: " + prove(pp, Halo2Circuit(K, BuildCircuit(inputs).value)).error)
  {
    var c :- BuildCircuit(inputs);
    var proof := prove(pp, Halo2Circuit(K, c));
    if proof.Err? then Err("Proof generation failed: " + proof.error)
    else Ok((proof.value, [c.requiredHash, c.studyId]))
  }

  /** When the hashes differ, the result does not depend on the backend. */
  lemma RejectedBeforeBackend(prove1: (ProverParam, Halo2Circuit<DiagnosisCircuit>) -> Result<seq<Byte>>,
                              prove2: (ProverParam, Halo2Circuit<DiagnosisCircuit>) -> Result<seq<Byte>>,
                              pp1: ProverParam, pp2: ProverParam, inputs: map<string, seq<Fr>>)
    requires BuildCircuit(inputs).Err?
    ensures GenerateProofSpec(prove1, pp1, inputs) == GenerateProofSpec(prove2, pp2, inputs)
  {
  }

  /** `generate_proof`: the checks, then the backend's `prove`, called exactly
      when the checks passed. */
  method GenerateProof(backend: PlonkishBackend<DiagnosisCircuit>, pp: ProverParam, inputs: map<string, seq<Fr>>)
    returns (r: Result<(seq<Byte>, seq<Fr>)>)
    modifies backend
    ensures r == GenerateProofSpec(backend.prove, pp, inputs)
    ensures backend.proveCalls == old(backend.proveCalls) +
      (if BuildCircuit(inputs).Ok? then [Halo2Circuit(K, BuildCircuit(inputs).value)] else [])
    ensures backend.verifyCalls == old(backend.verifyCalls)
  {
    var diagnosisHash :- FirstInput(inputs, "diagnosis_hash", "Missing diagnosis_hash", "Invalid diagnosis_hash");
    var requiredHash :- FirstInput(inputs, "required_hash", "Missing required_hash", "Invalid required_hash");
    var studyId :- FirstInput(inputs, "study_id", "Missing study_id", "Invalid study_id");
    var d := FieldToU64(Repr(diagnosisHash));
    var q := FieldToU64(Repr(requiredHash));
    // the `?` after each field_to_u64 never fires: a representation has 32 bytes
    FieldToU64Low(diagnosisHash);
    FieldToU64Low(requiredHash);
    if d.value != q.value {
      return Err(Mismatch(d.value, q.value));
    }
    var circuit := DiagnosisCircuit(Known(diagnosisHash), requiredHash, studyId);
    var proof := backend.Prove(pp, Halo2Circuit(K, circuit));
    if proof.Err? {
      return Err("Proof generation failed: " + proof.error);
    }
    r := Ok((proof.value, [requiredHash, studyId]));
  }

  /** `verify_proof` on pure values. */
  function VerifyProofSpec(verify: (VerifierParam, seq<seq<Fr>>, seq<Byte>) -> Result<()>,
                           vp: VerifierParam, proof: seq<Byte>, inputs: seq<Fr>): (r: Result<bool>)
    ensures r.Ok? ==> r.value
    ensures |inputs| != 2 ==> r == Err(ArityError)
    ensures |inputs| == 2 ==> (r.Ok? <==> verify(vp, [inputs], proof).Ok?)
  {
    if |inputs| != 2 then Err(ArityError)
    else
      var result := verify(vp, [inputs], proof);
      if result.Ok? then Ok(true) else Err("Verification failed: " + result.error)
  }

  /** `verify_proof`: the arity check, then the backend's `verify`, reached
      only for two public inputs. */
  method VerifyProof(backend: PlonkishBackend<DiagnosisCircuit>, vp: VerifierParam, proof: seq<Byte>, inputs: seq<Fr>)
    returns (r: Result<bool>)
    modifies backend
    ensures r == VerifyProofSpec(backend.verify, vp, proof, inputs)
    ensures backend.verifyCalls == old(backend.verifyCalls) + (if |inputs| == 2 then [([inputs], proof)] else [])
    ensures backend.proveCalls == old(backend.proveCalls)
  {
    if |inputs| != 2 {
      return Err(ArityError);
    }
    var result := backend.Verify(vp, [inputs], proof);
    if result.Ok? {
      r := Ok(true);
    } else {
      r := Err("Verification failed: " + result.error);
    }
  }

  ghost predicate Complete(prove: (ProverParam, Halo2Circuit<DiagnosisCircuit>) -> Result<seq<Byte>>,
                           verify: (VerifierParam, seq<seq<Fr>>, seq<Byte>) -> Result<()>,
                           pp: ProverParam, vp: VerifierParam)
  {
    forall c :: prove(pp, c).Ok? ==> verify(vp, Instances(c.circuit), prove(pp, c).value).Ok?
  }

  /** For a complete backend, a proof `generate_proof` emits verifies against
      the public inputs it emits with it. */
  lemma GeneratedProofVerifies(prove: (ProverParam, Halo2Circuit<DiagnosisCircuit>) -> Result<seq<Byte>>,
                               verify: (VerifierParam, seq<seq<Fr>>, seq<Byte>) -> Result<()>,
                               pp: ProverParam, vp: VerifierParam, inputs: map<string, seq<Fr>>)
    requires Complete(prove, verify, pp, vp)
    requires GenerateProofSpec(prove, pp, inputs).Ok?
    ensures VerifyProofSpec(verify, vp, GenerateProofSpec(prove, pp, inputs).value.0,
                            GenerateProofSpec(prove, pp, inputs).value.1) == Ok(true)
  {
    var c := BuildCircuit(inputs).value;
    assert prove(pp, Halo2Circuit(K, c)).Ok?;
  }
}
