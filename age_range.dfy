/** The age-range eligibility circuit of the `composite` crate and its
    hybrid pipeline: the inputs are read and truncated to `u64`, the range is
    checked off-circuit, and only then is the backend asked for a proof whose
    public inputs are `[min_age, max_age, study_id]`. */
module AgeRange {
  import opened Bytes
  import opened Text
  import opened Results
  import opened Field
  import opened Halo2
  import opened Backend
  import opened Inputs

  /** `k`: the circuit has 2^4 rows. */
  const K: nat := 4

  const ArityError: string := "Invalid number of public inputs (expected 3: min_age, max_age, study_id)"

  /** `AgeRangeConfig`: three advice columns, a selector and an instance column. */
  datatype AgeRangeConfig = AgeRangeConfig(age: nat, minAge: nat, maxAge: nat, selector: nat, instance: nat)

  /** `AgeRangeCircuit`: private `age`; public `min_age`, `max_age`, `study_id`. */
  datatype AgeRangeCircuit = AgeRangeCircuit(age: Value<Fr>, minAge: Fr, maxAge: Fr, studyId: Fr)

  function Default(): AgeRangeCircuit
  {
    AgeRangeCircuit(Unknown, 0, 0, 0)
  }

  /** `without_witnesses`: the default circuit, which knows no age and
      declares all-zero public inputs. */
  function WithoutWitnesses(c: AgeRangeCircuit): (r: AgeRangeCircuit)
    ensures r.age == Unknown
    ensures Instances(r) == [[0, 0, 0]]
  {
    Default()
  }

  /** `instances`: one instance column holding min_age, max_age, study_id. */
  function Instances(c: AgeRangeCircuit): (r: seq<seq<Fr>>)
    ensures |r| == 1 && |r[0]| == 3
    ensures r[0][0] == c.minAge && r[0][1] == c.maxAge && r[0][2] == c.studyId
  {
    [[c.minAge, c.maxAge, c.studyId]]
  }

  /** The "age knowledge" gate, `s * (age - age)`. */
  function AgeKnowledgeGate(config: AgeRangeConfig): (g: Gate)
    ensures g.name == "age knowledge" && |g.polys| == 1
    ensures forall row :: Satisfies([g], row)
  {
    SelfDifferenceAlwaysVanishes("age knowledge", config.selector, config.age);
    SelfDifferenceGate("age knowledge", config.selector, config.age)
  }

  /** The public inputs are fixed by the circuit's public fields alone: the
      private age never reaches the instance column. */
  lemma InstancesIgnoreWitness(c: AgeRangeCircuit, age: Value<Fr>)
    ensures Instances(c.(age := age)) == Instances(c)
    ensures Instances(c) == Instances(WithoutWitnesses(c)) <==> c.minAge == 0 && c.maxAge == 0 && c.studyId == 0
  {
  }

  /** `configure`: allocate the columns and the selector, enable equality on
      the three advice columns and the instance column, add the gate. */
  method Configure(meta: ConstraintSystem) returns (config: AgeRangeConfig)
    modifies meta
    ensures config == AgeRangeConfig(old(meta.numAdvice), old(meta.numAdvice) + 1, old(meta.numAdvice) + 2,
                                     old(meta.numSelectors), old(meta.numInstance))
    ensures meta.numAdvice == old(meta.numAdvice) + 3
    ensures meta.numSelectors == old(meta.numSelectors) + 1
    ensures meta.numInstance == old(meta.numInstance) + 1
    ensures meta.equality == old(meta.equality) + {Advice(config.age), Advice(config.minAge), Advice(config.maxAge), Instance(config.instance)}
    ensures meta.gates == old(meta.gates) + [AgeKnowledgeGate(config)]
  {
    var age := meta.AdviceColumn();
    var minAge := meta.AdviceColumn();
    var maxAge := meta.AdviceColumn();
    var selector := meta.NewSelector();
    var instance := meta.InstanceColumn();
    meta.EnableEquality(Advice(age));
    meta.EnableEquality(Advice(minAge));
    meta.EnableEquality(Advice(maxAge));
    meta.EnableEquality(Instance(instance));
    config := AgeRangeConfig(age, minAge, maxAge, selector, instance);
    meta.CreateGate(AgeKnowledgeGate(config));
  }

  /** The gate holds on every row, for any selector value and any age, minimum
      and maximum: it does not enforce the range. */
  lemma AgeKnowledgeTrivial(config: AgeRangeConfig, row: Row)
    ensures Satisfies([AgeKnowledgeGate(config)], row)
  {
    SelfDifferenceVanishes("age knowledge", config.selector, config.age, row);
  }

  /** The row-0 cells `synthesize` assigns. */
  function Row0Cells(c: AgeRangeCircuit, config: AgeRangeConfig): map<(Column, nat), Value<Fr>>
  {
    map[(Advice(config.age), 0) := c.age][(Advice(config.minAge), 0) := Known(c.minAge)][(Advice(config.maxAge), 0) := Known(c.maxAge)]
  }

  /** Only the three advice cells at row 0 are laid out; study_id is in no
      cell, so no cell is tied to the instance column. */
  lemma Row0Layout(c: AgeRangeCircuit, config: AgeRangeConfig, studyId: Fr)
    ensures forall key :: key in Row0Cells(c, config) ==>
      key.1 == 0 && key.0.Advice? && key.0.index in {config.age, config.minAge, config.maxAge}
    ensures Row0Cells(c.(studyId := studyId), config) == Row0Cells(c, config)
    ensures config.age != config.minAge && config.age != config.maxAge ==>
      Row0Cells(c, config)[(Advice(config.age), 0)] == c.age
  {
  }

  /** `synthesize`: enable the selector at row 0 and assign age, min_age and
      max_age at row 0. */
  method Synthesize(c: AgeRangeCircuit, config: AgeRangeConfig, region: Region)
    modifies region
    ensures region.enabled == old(region.enabled) + {(config.selector, 0)}
    ensures region.cells == old(region.cells) + Row0Cells(c, config)
  {
    region.EnableSelector(config.selector, 0);
    region.AssignAdvice(config.age, 0, c.age);
    region.AssignAdvice(config.minAge, 0, Known(c.minAge));
    region.AssignAdvice(config.maxAge, 0, Known(c.maxAge));
  }

  function BelowMinimum(age: U64, minAge: U64): string
  {
    "Age " + Decimal(age) + " is below minimum " + Decimal(minAge)
  }

  function AboveMaximum(age: U64, maxAge: U64): string
  {
    "Age " + Decimal(age) + " is above maximum " + Decimal(maxAge)
  }

  /** `validate_age_range`: both bounds inclusive; the minimum is checked
      first. */
  function ValidateAgeRange(age: U64, minAge: U64, maxAge: U64): (r: Result<()>)
    ensures r.Ok? <==> minAge <= age <= maxAge
    ensures age < minAge ==> r == Err(BelowMinimum(age, minAge))
    ensures minAge <= age && maxAge < age ==> r == Err(AboveMaximum(age, maxAge))
  {
    if age < minAge then Err(BelowMinimum(age, minAge))
    else if age > maxAge then Err(AboveMaximum(age, maxAge))
    else Ok(())
  }

  /** The cases the source's tests name. */
  lemma ValidateAgeRangeExamples()
    ensures ValidateAgeRange(30, 18, 65).Ok?
    ensures ValidateAgeRange(18, 18, 65).Ok? && ValidateAgeRange(65, 18, 65).Ok?
    ensures ValidateAgeRange(15, 18, 65).Err? && ValidateAgeRange(17, 18, 65).Err?
    ensures ValidateAgeRange(66, 18, 65).Err? && ValidateAgeRange(80, 18, 65).Err?
  {
  }

  /** The message names the age and the bound it violates. */
  lemma BelowMinimumMessage()
    ensures ValidateAgeRange(17, 18, 65) == Err("Age 17 is below minimum 18")
  {
    assert Decimal(17) == "17" by {
      assert DigitChar(7) == '7';
      assert Decimal(1) == "1";
    }
    assert Decimal(18) == "18" by {
      assert DigitChar(8) == '8';
      assert Decimal(1) == "1";
    }
    assert BelowMinimum(17, 18) == "Age 17 is below minimum 18";
  }

  /** With min > max an age above both is reported as below the minimum,
      because that check runs first. */
  lemma MinimumCheckedFirst()
    ensures ValidateAgeRange(70, 80, 18) == Err(BelowMinimum(70, 80))
  {
  }

  /** The extraction of age, min_age, max_age, study_id, in that order. */
  function Extract(inputs: map<string, seq<Fr>>): (r: Result<(Fr, Fr, Fr, Fr)>)
    ensures r.Ok? <==> AllPresent(inputs)
    ensures r.Ok? ==> r.value == (inputs["age"][0], inputs["min_age"][0], inputs["max_age"][0], inputs["study_id"][0])
  {
    var age :- FirstInput(inputs, "age", "Missing age", "Invalid age");
    var minAge :- FirstInput(inputs, "min_age", "Missing min_age", "Invalid min_age");
    var maxAge :- FirstInput(inputs, "max_age", "Missing max_age", "Invalid max_age");
    var studyId :- FirstInput(inputs, "study_id", "Missing study_id", "Invalid study_id");
    Ok((age, minAge, maxAge, studyId))
  }

  /** Everything `generate_proof` does before it builds the circuit: the
      extraction, truncation of age, min_age and max_age with `field_to_u64`,
      and the range check. */
  function BuildCircuit(inputs: map<string, seq<Fr>>): (r: Result<AgeRangeCircuit>)
    ensures Extract(inputs).Err? ==> r == Err(Extract(inputs).error)
    ensures r.Ok? ==> AllPresent(inputs)
    ensures r.Ok? ==> r.value == AgeRangeCircuit(Known(inputs["age"][0]), inputs["min_age"][0],
                                                 inputs["max_age"][0], inputs["study_id"][0])
  {
    var (age, minAge, maxAge, studyId) :- Extract(inputs);
    // field_to_u64 cannot fail on a 32-byte representation
    FieldToU64Low(age);
    FieldToU64Low(minAge);
    FieldToU64Low(maxAge);
    var ok :- ValidateAgeRange(ToU64(Repr(age)).value, ToU64(Repr(minAge)).value, ToU64(Repr(maxAge)).value);
    Ok(AgeRangeCircuit(Known(age), minAge, maxAge, studyId))
  }

  predicate AllPresent(inputs: map<string, seq<Fr>>)
  {
    Present(inputs, "age") && Present(inputs, "min_age") && Present(inputs, "max_age") && Present(inputs, "study_id")
  }

  /** The low 64 bits of the first value under a key. */
  function Low(inputs: map<string, seq<Fr>>, key: string): U64
    requires Present(inputs, key)
  {
    inputs[key][0] % TwoTo64
  }

  /** The first key, in the order age, min_age, max_age, study_id, that is
      absent or empty decides the error. */
  lemma ExtractionOrder(inputs: map<string, seq<Fr>>)
    ensures "age" !in inputs ==> Extract(inputs) == Err("Missing age")
    ensures "age" in inputs && inputs["age"] == [] ==> Extract(inputs) == Err("Invalid age")
    ensures Present(inputs, "age") && "min_age" !in inputs ==> Extract(inputs) == Err("Missing min_age")
    ensures Present(inputs, "age") && "min_age" in inputs && inputs["min_age"] == [] ==>
      Extract(inputs) == Err("Invalid min_age")
    ensures Present(inputs, "age") && Present(inputs, "min_age") && "max_age" !in inputs ==>
      Extract(inputs) == Err("Missing max_age")
    ensures Present(inputs, "age") && Present(inputs, "min_age") && "max_age" in inputs && inputs["max_age"] == [] ==>
      Extract(inputs) == Err("Invalid max_age")
    ensures Present(inputs, "age") && Present(inputs, "min_age") && Present(inputs, "max_age") && "study_id" !in inputs ==>
      Extract(inputs) == Err("Missing study_id")
    ensures (Present(inputs, "age") && Present(inputs, "min_age") && Present(inputs, "max_age") &&
             "study_id" in inputs && inputs["study_id"] == []) ==> Extract(inputs) == Err("Invalid study_id")
  {
  }

  /** With every input present, the outcome is the range check on the low 64
      bits of age, min_age and max_age; study_id is never inspected. */
  lemma {:induction false} RangeCheckDecides(inputs: map<string, seq<Fr>>)
    requires AllPresent(inputs)
    ensures BuildCircuit(inputs).Ok? <==> Low(inputs, "min_age") <= Low(inputs, "age") <= Low(inputs, "max_age")
    ensures Low(inputs, "age") < Low(inputs, "min_age") ==>
      BuildCircuit(inputs) == Err(BelowMinimum(Low(inputs, "age"), Low(inputs, "min_age")))
    ensures Low(inputs, "min_age") <= Low(inputs, "age") && Low(inputs, "max_age") < Low(inputs, "age") ==>
      BuildCircuit(inputs) == Err(AboveMaximum(Low(inputs, "age"), Low(inputs, "max_age")))
  {
    FieldToU64Low(inputs["age"][0]);
    FieldToU64Low(inputs["min_age"][0]);
    FieldToU64Low(inputs["max_age"][0]);
  }

  /** generate_proof succeeds on its checks exactly when every input is
      present and the truncated age lies in the inclusive range. */
  lemma BuildCircuitSucceeds(inputs: map<string, seq<Fr>>)
    ensures BuildCircuit(inputs).Ok? <==>
      AllPresent(inputs) && Low(inputs, "min_age") <= Low(inputs, "age") <= Low(inputs, "max_age")
  {
    if AllPresent(inputs) {
      RangeCheckDecides(inputs);
    }
  }

  /** Field elements that agree on their low 64 bits are indistinguishable to
      the range check. */
  lemma HighBitsIgnored(inputs: map<string, seq<Fr>>, age: Fr)
    requires AllPresent(inputs) && age % TwoTo64 == inputs["age"][0] % TwoTo64
    ensures BuildCircuit(inputs["age" := [age]]).Ok? == BuildCircuit(inputs).Ok?
  {
    RangeCheckDecides(inputs);
    RangeCheckDecides(inputs["age" := [age]]);
  }

  /** `generate_proof` on pure values: the checks, then the backend's `prove`
      on the circuit, then the public inputs. */
  function GenerateProofSpec(prove: (ProverParam, Halo2Circuit<AgeRangeCircuit>) -> Result<seq<Byte>>,
                             pp: ProverParam, inputs: map<string, seq<Fr>>): (r: Result<(seq<Byte>, seq<Fr>)>)
    ensures BuildCircuit(inputs).Err? ==> r == Err(BuildCircuit(inputs).error)
    ensures r.Ok? ==> BuildCircuit(inputs).Ok? && Instances(BuildCircuit(inputs).value) == [r.value.1]
    ensures r.Ok? ==> r.value.1 == [inputs["min_age"][0], inputs["max_age"][0], inputs["study_id"][0]]
    ensures BuildCircuit(inputs).Ok? ==>
      (r.Ok? <==> prove(pp, Halo2Circuit(K, BuildCircuit(inputs).value)).Ok?)
    ensures r.Ok? ==> r.value.0 == prove(pp, Halo2Circuit(K, BuildCircuit(inputs).value)).value
    ensures BuildCircuit(inputs).Ok? && prove(pp, Halo2Circuit(K, BuildCircuit(inputs).value)).Err? ==>
      r == Err("Proof generation failed: " + prove(pp, Halo2Circuit(K, BuildCircuit(inputs).value)).error)
  {
    var c :- BuildCircuit(inputs);
    var proof := prove(pp, Halo2Circuit(K, c));
    if proof.Err? then Err("Proof generation failed: " + proof.error)
    else Ok((proof.value, [c.minAge, c.maxAge, c.studyId]))
  }

  /** When a check fails, the result does not depend on the backend at all. */
  lemma RejectedBeforeBackend(prove1: (ProverParam, Halo2Circuit<AgeRangeCircuit>) -> Result<seq<Byte>>,
                              prove2: (ProverParam, Halo2Circuit<AgeRangeCircuit>) -> Result<seq<Byte>>,
                              pp1: ProverParam, pp2: ProverParam, inputs: map<string, seq<Fr>>)
    requires BuildCircuit(inputs).Err?
    ensures GenerateProofSpec(prove1, pp1, inputs) == GenerateProofSpec(prove2, pp2, inputs)
  {
  }

  /** `generate_proof`: the checks, then a fresh transcript handed to the
      backend's `prove`, which is called exactly when every check passed. */
  method GenerateProof(backend: PlonkishBackend<AgeRangeCircuit>, pp: ProverParam, inputs: map<string, seq<Fr>>)
    returns (r: Result<(seq<Byte>, seq<Fr>)>)
    modifies backend
    ensures r == GenerateProofSpec(backend.prove, pp, inputs)
    ensures backend.proveCalls == old(backend.proveCalls) +
      (if BuildCircuit(inputs).Ok? then [Halo2Circuit(K, BuildCircuit(inputs).value)] else [])
    ensures backend.verifyCalls == old(backend.verifyCalls)
  {
    var age :- FirstInput(inputs, "age", "Missing age", "Invalid age");
    var minAge :- FirstInput(inputs, "min_age", "Missing min_age", "Invalid min_age");
    var maxAge :- FirstInput(inputs, "max_age", "Missing max_age", "Invalid max_age");
    var studyId :- FirstInput(inputs, "study_id", "Missing study_id", "Invalid study_id");
    var ageU := FieldToU64(Repr(age));
    var minU := FieldToU64(Repr(minAge));
    var maxU := FieldToU64(Repr(maxAge));
    // the `?` after each field_to_u64 never fires: a representation has 32 bytes
    FieldToU64Low(age);
    FieldToU64Low(minAge);
    FieldToU64Low(maxAge);
    var ok :- ValidateAgeRange(ageU.value, minU.value, maxU.value);
    var circuit := AgeRangeCircuit(Known(age), minAge, maxAge, studyId);
    var proof := backend.Prove(pp, Halo2Circuit(K, circuit));
    if proof.Err? {
      return Err("Proof generation failed: " + proof.error);
    }
    r := Ok((proof.value, [minAge, maxAge, studyId]));
  }

  /** `verify_proof` on pure values. */
  function VerifyProofSpec(verify: (VerifierParam, seq<seq<Fr>>, seq<Byte>) -> Result<()>,
                           vp: VerifierParam, proof: seq<Byte>, inputs: seq<Fr>): (r: Result<bool>)
    ensures r.Ok? ==> r.value
    ensures |inputs| != 3 ==> r == Err(ArityError)
    ensures |inputs| == 3 ==> (r.Ok? <==> verify(vp, [inputs], proof).Ok?)
  {
    if |inputs| != 3 then Err(ArityError)
    else
      var result := verify(vp, [inputs], proof);
      if result.Ok? then Ok(true) else Err("Verification failed: " + result.error)
  }

  /** `verify_proof`: the arity check, then the backend's `verify`, reached
      only for three public inputs. */
  method VerifyProof(backend: PlonkishBackend<AgeRangeCircuit>, vp: VerifierParam, proof: seq<Byte>, inputs: seq<Fr>)
    returns (r: Result<bool>)
    modifies backend
    ensures r == VerifyProofSpec(backend.verify, vp, proof, inputs)
    ensures backend.verifyCalls == old(backend.verifyCalls) + (if |inputs| == 3 then [([inputs], proof)] else [])
    ensures backend.proveCalls == old(backend.proveCalls)
  {
    if |inputs| != 3 {
      return Err(ArityError);
    }
    var result := backend.Verify(vp, [inputs], proof);
    if result.Ok? {
      r := Ok(true);
    } else {
      r := Err("Verification failed: " + result.error);
    }
  }

  /** The backend accepts, against a circuit's own instances, every proof it
      produced for that circuit. */
  ghost predicate Complete(prove: (ProverParam, Halo2Circuit<AgeRangeCircuit>) -> Result<seq<Byte>>,
                           verify: (VerifierParam, seq<seq<Fr>>, seq<Byte>) -> Result<()>,
                           pp: ProverParam, vp: VerifierParam)
  {
    forall c :: prove(pp, c).Ok? ==> verify(vp, Instances(c.circuit), prove(pp, c).value).Ok?
  }

  /** For a complete backend, a proof `generate_proof` emits verifies against
      the public inputs it emits with it. */
  lemma GeneratedProofVerifies(prove: (ProverParam, Halo2Circuit<AgeRangeCircuit>) -> Result<seq<Byte>>,
                               verify: (VerifierParam, seq<seq<Fr>>, seq<Byte>) -> Result<()>,
                               pp: ProverParam, vp: VerifierParam, inputs: map<string, seq<Fr>>)
    requires Complete(prove, verify, pp, vp)
    requires GenerateProofSpec(prove, pp, inputs).Ok?
    ensures VerifyProofSpec(verify, vp, GenerateProofSpec(prove, pp, inputs).value.0,
                            GenerateProofSpec(prove, pp, inputs).value.1) == Ok(true)
  {
    var c := BuildCircuit(inputs).value;
    assert prove(pp, Halo2Circuit(K, c)).Ok?;
  }
}
