# Eligibility circuits: the off-circuit validation layer

This project models the "hybrid validation" layer of the zero-knowledge
eligibility circuits in `packages/zk`. Each circuit has a single row. The
off-circuit code checks a patient's eligibility before any proof is made. The
proving systems themselves are out of scope.

- **Age range** (`composite` crate, module `AgeRange`). `generate_proof` reads
  `age`, `min_age`, `max_age` and `study_id` from a named-input map. It
  truncates the first three to `u64` with `field_to_u64` and checks
  `min_age <= age <= max_age`. Only then does it ask the backend for a proof,
  and it returns the public inputs `[min_age, max_age, study_id]`.
  `verify_proof` rejects any public-input vector that does not have exactly
  three elements.
- **Diagnosis** (`diagnosis` crate, module `Diagnosis`). `hash_diagnosis_code`
  is the byte sum of a code. `validate_diagnosis_membership` is an exact
  string-membership test. `generate_proof` compares the low 64 bits of
  `diagnosis_hash` and `required_hash` and returns the public inputs
  `[required_hash, study_id]`. `verify_proof` requires exactly two public
  inputs.
- **Gates** (module `Halo2`). The two circuit gates are the self-differences
  `s * (age - age)` and `s * (d - d)`. They vanish on every row, so the
  circuits enforce neither the range nor the membership. The model keeps
  them exactly that weak.
- **Direct-halo2 wrapper** (`plonk-composite` crate, module `PlonkComposite`).
  It runs the same extraction and range check, with its own messages, in
  front of halo2's KZG/SHPLONK prover. Its verification always returns
  `Ok(bool)` and it has no arity check.

Shared pieces:
- `Results`: `Result` for the crates' string errors, and `Run` for a call
  that may panic.
- `Bytes`: byte arithmetic (little-endian encoding, sums).
- `Text`: UTF-8 encoding and `{}` rendering of integers.
- `Field`: the BN254 scalar field with its 32-byte little-endian `to_repr`,
  and `field_to_u64`.
- `Inputs`: named-input lookup (`get(key)?.get(0)?`).
- `Backend`: the plonkish backend.

The proving backends are classes whose `prove`/`verify` are uninterpreted
functions. Each class logs its calls, so the contracts can say whether, and
with what arguments, the backend was reached. `synthesize` and `configure` are
modelled as methods on `Region` and `ConstraintSystem` objects that record
assigned cells, enabled selectors, columns and gates. `field_to_u64` is a
method that fills an 8-byte array, proved against the function `ToU64`.

Where the code and its own doc comments disagree, the model follows the code:
- The `composite` crate is an age-range circuit, despite its name
  (composite/src/lib.rs:1-9).
- The doc comment says the circuit "proves: min_age <= age <= max_age"
  (composite/src/lib.rs:86-88). Its only gate is `s * (age - age)`
  (composite/src/lib.rs:159-161), which holds on every row. The range is
  checked off-circuit only.
- The diagnosis doc comment says the circuit proves that the required
  diagnosis is among the patient's (diagnosis/src/lib.rs:88-90). Its only
  gate is `s * (d - d)` (diagnosis/src/lib.rs:143-145).
- The diagnosis `generate_proof` is documented as validating membership and
  hashing the matching diagnosis (diagnosis/src/lib.rs:229-232). It calls
  neither `hash_diagnosis_code` nor `validate_diagnosis_membership`. It only
  compares the two hashes it is given (diagnosis/src/lib.rs:268-276).
- `generate_proof` is documented as binding the proof to study_id
  (composite/src/lib.rs:250, 255). `synthesize` never ties a cell to the
  instance column, and `study_id` is placed in no cell
  (composite/src/lib.rs:181-205).

Here `composite/…` stands for packages/zk/circuits/circuits/composite/… and
`diagnosis/…` for packages/zk/circuits/circuits/diagnosis/….

## Model

| member | source | states |
|---|---|---|
| Field.ToU64 | packages/zk/circuits/circuits/composite/src/lib.rs:363-375 | fails exactly on a representation shorter than 8 bytes, with "Field element too small"; otherwise yields the little-endian value of bytes 0..8, which is below 2^64 |
| Field.FieldToU64 | packages/zk/circuits/circuits/composite/src/lib.rs:363-375 | copying the first 8 representation bytes into an 8-byte buffer and reading it little-endian gives exactly `ToU64` of the representation, error case included |
| Field.FieldToU64Low | packages/zk/circuits/circuits/diagnosis/src/lib.rs:333-345 | on any field element `field_to_u64` succeeds and returns the element modulo 2^64 (the bits above 64 are dropped) |
| Field.ReprDecodes | packages/zk/circuits/circuits/composite/src/lib.rs:364 | the 32-byte little-endian representation decodes back to the element |
| Field.Repr | packages/zk/circuits/circuits/composite/src/lib.rs:364-365 | the representation is 32 bytes long |
| Bytes.LeValueOfLeBytes | packages/zk/circuits/circuits/composite/src/lib.rs:373-374 | decoding the first n little-endian bytes of x gives x mod 256^n |
| Bytes.LeBytesPrefix | packages/zk/circuits/circuits/composite/src/lib.rs:373 | the first m bytes of an n-byte little-endian encoding are the m-byte encoding |
| Bytes.TotalPermutation | packages/zk/circuits/circuits/diagnosis/src/lib.rs:207 | a sum of weights does not depend on the order of the summands |
| Bytes.TotalAppend | packages/zk/circuits/circuits/diagnosis/src/lib.rs:207 | a sum over a concatenation is the sum of the two sums |
| Bytes.ByteSumBound | packages/zk/circuits/circuits/diagnosis/src/lib.rs:207 | a byte sum is at most 255 per byte |
| Text.Utf8 | packages/zk/circuits/circuits/diagnosis/src/lib.rs:207 | `str::bytes`: a string of n characters has between n and 4n UTF-8 bytes |
| Text.Utf8Append | packages/zk/circuits/circuits/diagnosis/src/lib.rs:207 | the UTF-8 bytes of a concatenation are the concatenation of the bytes |
| Text.AsciiEncoding | packages/zk/circuits/circuits/diagnosis/src/lib.rs:207 | an ASCII character is the single byte of its code point |
| Text.DecimalRoundTrip | packages/zk/circuits/circuits/composite/src/lib.rs:232-241 | the `{}` rendering of a u64 in the error messages reads back as the same number |
| Inputs.FirstInput | packages/zk/circuits/circuits/composite/src/lib.rs:269-274 | `get(key).ok_or(missing)?.get(0).ok_or(invalid)?`: Ok exactly when the key is present with a non-empty list, and then its first element; the missing error for an absent key, the invalid error for an empty list |
| Halo2.SelfDifferenceAlwaysVanishes | packages/zk/circuits/circuits/composite/src/lib.rs:159-161 | the same gate vanishes on all rows at once |
| Halo2.SelfDifferenceVanishes | packages/zk/circuits/circuits/composite/src/lib.rs:159-161 | a gate `s * (x - x)` evaluates to 0 on every row, for every selector value and every cell value |
| Halo2.ConstraintSystem.AdviceColumn | packages/zk/circuits/circuits/composite/src/lib.rs:133 | allocates the next advice column and changes nothing else |
| Halo2.ConstraintSystem.InstanceColumn | packages/zk/circuits/circuits/composite/src/lib.rs:137 | allocates the next instance column and changes nothing else |
| Halo2.ConstraintSystem.NewSelector | packages/zk/circuits/circuits/composite/src/lib.rs:136 | allocates the next selector and changes nothing else |
| Halo2.ConstraintSystem.EnableEquality | packages/zk/circuits/circuits/composite/src/lib.rs:139-142 | adds one column to the equality set and changes nothing else |
| Halo2.ConstraintSystem.CreateGate | packages/zk/circuits/circuits/composite/src/lib.rs:146 | appends one gate and changes nothing else |
| Halo2.Region.EnableSelector | packages/zk/circuits/circuits/composite/src/lib.rs:181 | marks one selector enabled on one row and changes no cell |
| Halo2.Region.AssignAdvice | packages/zk/circuits/circuits/composite/src/lib.rs:183-204 | writes one advice cell and changes no selector |
| Backend.PlonkishBackend.Prove | packages/zk/circuits/circuits/composite/src/lib.rs:319-325 | returns the backend's `prove` result and logs exactly this call |
| Backend.PlonkishBackend.Verify | packages/zk/circuits/circuits/composite/src/lib.rs:354-355 | returns the backend's `verify` result and logs exactly this call |
| AgeRange.Instances | packages/zk/circuits/circuits/composite/src/lib.rs:220-223 | one instance column of three values: min_age, max_age, study_id, in that order |
| AgeRange.InstancesIgnoreWitness | packages/zk/circuits/circuits/composite/src/lib.rs:220-223 | the instances do not depend on the private age; they equal those of `without_witnesses` exactly when all three public values are 0 |
| AgeRange.AgeKnowledgeGate | packages/zk/circuits/circuits/composite/src/lib.rs:146-161 | the "age knowledge" gate has one polynomial, and every row satisfies it |
| AgeRange.WithoutWitnesses | packages/zk/circuits/circuits/composite/src/lib.rs:113-130 | `without_witnesses` is the default circuit: no known age and all-zero public inputs |
| AgeRange.Configure | packages/zk/circuits/circuits/composite/src/lib.rs:132-171 | three fresh advice columns, one selector and one instance column; equality on all four; exactly the "age knowledge" gate added |
| AgeRange.AgeKnowledgeTrivial | packages/zk/circuits/circuits/composite/src/lib.rs:146-162 | the "age knowledge" gate holds on every row whatever the age and bounds, so the circuit does not enforce the range |
| AgeRange.Row0Layout | packages/zk/circuits/circuits/composite/src/lib.rs:181-205 | the laid-out cells are advice cells of age, min_age and max_age at row 0, and none depends on study_id |
| AgeRange.Synthesize | packages/zk/circuits/circuits/composite/src/lib.rs:173-212 | enables the selector at row 0 and adds exactly the row-0 cells of age, min_age and max_age |
| AgeRange.ValidateAgeRange | packages/zk/circuits/circuits/composite/src/lib.rs:230-243 | Ok exactly when min_age <= age <= max_age, both bounds inclusive; below the minimum gives the below-minimum error, otherwise above the maximum gives the above-maximum error |
| AgeRange.ValidateAgeRangeExamples | packages/zk/circuits/circuits/composite/src/lib.rs:423-440 | the unit tests: 30, 18 and 65 pass with 18..65; 15, 17, 66 and 80 fail |
| AgeRange.BelowMinimumMessage | packages/zk/circuits/circuits/composite/src/lib.rs:232-235 | age 17 with minimum 18 yields "Age 17 is below minimum 18" |
| AgeRange.MinimumCheckedFirst | packages/zk/circuits/circuits/composite/src/lib.rs:231-242 | with min > max, an age above both is reported as below the minimum |
| AgeRange.Extract | packages/zk/circuits/circuits/composite/src/lib.rs:269-295 | succeeds exactly when all four inputs are present and non-empty, with their first elements |
| AgeRange.ExtractionOrder | packages/zk/circuits/circuits/composite/src/lib.rs:269-295 | for age, min_age, max_age, study_id in turn, the first absent key gives "Missing k" and the first empty list gives "Invalid k" |
| AgeRange.BuildCircuit | packages/zk/circuits/circuits/composite/src/lib.rs:269-310 | an extraction error is returned unchanged; on success the circuit holds the known age and the first min_age, max_age and study_id |
| AgeRange.RangeCheckDecides | packages/zk/circuits/circuits/composite/src/lib.rs:297-303 | with all inputs present, the checks pass exactly when the low 64 bits of age lie within the low 64 bits of min_age and max_age, and the error is the validation message on the truncated values; study_id is never checked |
| AgeRange.BuildCircuitSucceeds | packages/zk/circuits/circuits/composite/src/lib.rs:269-303 | the checks pass exactly when all inputs are present and the truncated age is in range |
| AgeRange.HighBitsIgnored | packages/zk/circuits/circuits/composite/src/lib.rs:299 | two ages that agree modulo 2^64 give the same verdict |
| AgeRange.GenerateProofSpec | packages/zk/circuits/circuits/composite/src/lib.rs:257-334 | a failed check is returned before the backend matters; otherwise Ok exactly when `prove` succeeds, with the backend's proof bytes and public inputs `[min_age, max_age, study_id]` equal to the circuit's `instances()`; a backend failure gives "Proof generation failed: " and its error |
| AgeRange.RejectedBeforeBackend | packages/zk/circuits/circuits/composite/src/lib.rs:299-325 | when a check fails, the result is the same for every backend and every prover parameter |
| AgeRange.GenerateProof | packages/zk/circuits/circuits/composite/src/lib.rs:257-334 | computes `GenerateProofSpec`; the backend's `prove` is called once, on the k = 4 circuit, exactly when every check passed, and `verify` never |
| AgeRange.VerifyProofSpec | packages/zk/circuits/circuits/composite/src/lib.rs:337-360 | a length other than 3 gives the arity error; otherwise Ok (and then always true) exactly when the backend verifies |
| AgeRange.VerifyProof | packages/zk/circuits/circuits/composite/src/lib.rs:337-360 | computes `VerifyProofSpec`; the backend's `verify` is called exactly when there are three public inputs, on `[inputs]` |
| AgeRange.GeneratedProofVerifies | packages/zk/circuits/circuits/composite/src/lib.rs:220-223 | with a complete backend, a proof from `generate_proof` verifies with `Ok(true)` against the public inputs returned with it |
| Diagnosis.Instances | packages/zk/circuits/circuits/diagnosis/src/lib.rs:195-198 | one instance column of two values: required_hash, then study_id |
| Diagnosis.InstancesIgnoreWitness | packages/zk/circuits/circuits/diagnosis/src/lib.rs:195-198 | the instances do not depend on the private hash; they equal those of `without_witnesses` exactly when both public values are 0 |
| Diagnosis.MembershipGate | packages/zk/circuits/circuits/diagnosis/src/lib.rs:136-145 | the "diagnosis membership" gate has one polynomial, and every row satisfies it |
| Diagnosis.WithoutWitnesses | packages/zk/circuits/circuits/diagnosis/src/lib.rs:107-123 | `without_witnesses` is the default circuit: no known hash and all-zero public inputs |
| Diagnosis.Configure | packages/zk/circuits/circuits/diagnosis/src/lib.rs:125-154 | two fresh advice columns, one selector and one instance column; equality on all three; exactly the "diagnosis membership" gate added |
| Diagnosis.MembershipGateTrivial | packages/zk/circuits/circuits/diagnosis/src/lib.rs:136-146 | the "diagnosis membership" gate holds on every row, so the circuit enforces no membership |
| Diagnosis.Row0Layout | packages/zk/circuits/circuits/diagnosis/src/lib.rs:164-180 | the laid-out cells are the advice cells of diagnosis_hash and required_hash at row 0, and neither depends on study_id |
| Diagnosis.Synthesize | packages/zk/circuits/circuits/diagnosis/src/lib.rs:156-187 | enables the selector at row 0 and adds exactly the two row-0 cells |
| Diagnosis.HashDiagnosisCode | packages/zk/circuits/circuits/diagnosis/src/lib.rs:204-209 | never fails, and equals the exact sum of the UTF-8 byte values for every code shorter than 2^54 characters |
| Diagnosis.HashAppend | packages/zk/circuits/circuits/diagnosis/src/lib.rs:207 | the hash of a concatenation is the sum of the hashes, modulo 2^64 |
| Diagnosis.CodeSumByChars | packages/zk/circuits/circuits/diagnosis/src/lib.rs:207 | summing bytes equals summing the byte sums of the characters |
| Diagnosis.HashBytePermutation | packages/zk/circuits/circuits/diagnosis/src/lib.rs:207 | codes whose UTF-8 bytes are permutations of each other hash alike, even across character boundaries |
| Diagnosis.CrossCharacterCollision | packages/zk/circuits/circuits/diagnosis/src/lib.rs:207 | "\u{e9}\u{143}" and "\u{c3}\u{169}" share no character multiset but have permuted bytes, so they collide |
| Diagnosis.HashPermutation | packages/zk/circuits/circuits/diagnosis/src/lib.rs:207 | the character-level corollary: codes with the same characters in any order hash alike |
| Diagnosis.HashExamples | packages/zk/circuits/circuits/diagnosis/src/lib.rs:392-400 | "E11.9" hashes to 270 and "I10" to 170, so they differ |
| Diagnosis.AsciiWeights | packages/zk/circuits/circuits/diagnosis/src/lib.rs:207 | the byte values of the characters used by the test codes |
| Diagnosis.HashCollision | packages/zk/circuits/circuits/diagnosis/src/lib.rs:207 | the distinct codes "I10" and "I01" collide |
| Diagnosis.ValidateMembership | packages/zk/circuits/circuits/diagnosis/src/lib.rs:214-224 | Ok exactly when some list entry equals the required code as a string; otherwise the "does not have required diagnosis" error naming it |
| Diagnosis.MembershipExamples | packages/zk/circuits/circuits/diagnosis/src/lib.rs:402-421 | the unit tests: "E11.9" and "I10" are in ["E11.9", "I10"]; "I10" and "J45" are not in ["E11.9"] |
| Diagnosis.Extract | packages/zk/circuits/circuits/diagnosis/src/lib.rs:245-264 | succeeds exactly when all three inputs are present and non-empty, with their first elements |
| Diagnosis.ExtractionOrder | packages/zk/circuits/circuits/diagnosis/src/lib.rs:245-264 | for diagnosis_hash, required_hash, study_id in turn, the first absent key gives "Missing k" and the first empty list gives "Invalid k" |
| Diagnosis.BuildCircuit | packages/zk/circuits/circuits/diagnosis/src/lib.rs:245-283 | an extraction error is returned unchanged; on success the circuit holds the known diagnosis_hash, required_hash and study_id |
| Diagnosis.HashMatchDecides | packages/zk/circuits/circuits/diagnosis/src/lib.rs:266-276 | with all inputs present, the checks pass exactly when the two hashes agree on their low 64 bits; otherwise the mismatch error names both truncated values |
| Diagnosis.BuildCircuitSucceeds | packages/zk/circuits/circuits/diagnosis/src/lib.rs:245-276 | the checks pass exactly when all inputs are present and the low 64 bits agree |
| Diagnosis.HighBitsIgnored | packages/zk/circuits/circuits/diagnosis/src/lib.rs:268-271 | diagnosis_hash 2^64 + 5 passes against required_hash 5 |
| Diagnosis.GenerateProofSpec | packages/zk/circuits/circuits/diagnosis/src/lib.rs:233-305 | a failed check is returned before the backend matters; otherwise Ok exactly when `prove` succeeds, with the backend's proof bytes and public inputs `[required_hash, study_id]` equal to `instances()`; a backend failure gives "Proof generation failed: " and its error |
| Diagnosis.RejectedBeforeBackend | packages/zk/circuits/circuits/diagnosis/src/lib.rs:266-296 | when a check fails, the result is the same for every backend and every prover parameter |
| Diagnosis.GenerateProof | packages/zk/circuits/circuits/diagnosis/src/lib.rs:233-305 | computes `GenerateProofSpec`; `prove` is called once, on the k = 4 circuit, exactly when the checks passed |
| Diagnosis.VerifyProofSpec | packages/zk/circuits/circuits/diagnosis/src/lib.rs:308-330 | a length other than 2 gives the arity error; otherwise Ok (and then always true) exactly when the backend verifies |
| Diagnosis.VerifyProof | packages/zk/circuits/circuits/diagnosis/src/lib.rs:308-330 | computes `VerifyProofSpec`; `verify` is called exactly when there are two public inputs |
| Diagnosis.GeneratedProofVerifies | packages/zk/circuits/circuits/diagnosis/src/lib.rs:195-198 | with a complete backend, a proof from `generate_proof` verifies against the public inputs returned with it |
| PlonkComposite.Halo2Kzg.CreateProof | packages/zk/circuits/plonk-wrappers/plonk-composite/src/lib.rs:41-56 | returns halo2's `create_proof` result for the circuit and public inputs, and logs exactly this call |
| PlonkComposite.Halo2Kzg.VerifyProof | packages/zk/circuits/plonk-wrappers/plonk-composite/src/lib.rs:72-85 | returns halo2's `verify_proof` result and logs exactly this call |
| PlonkComposite.GenerateHalo2ProofSpec | packages/zk/circuits/plonk-wrappers/plonk-composite/src/lib.rs:33-61 | completes exactly when the prover succeeds, and then always with Ok, the prover's proof bytes and the public inputs unchanged; a prover failure panics with "prover should not fail" and the error |
| PlonkComposite.GenerateHalo2Proof | packages/zk/circuits/plonk-wrappers/plonk-composite/src/lib.rs:33-61 | computes `GenerateHalo2ProofSpec` with one prover call |
| PlonkComposite.VerifyHalo2ProofSpec | packages/zk/circuits/plonk-wrappers/plonk-composite/src/lib.rs:63-89 | always Ok, carrying true exactly when halo2 verification succeeds |
| PlonkComposite.VerifyHalo2Proof | packages/zk/circuits/plonk-wrappers/plonk-composite/src/lib.rs:63-89 | computes `VerifyHalo2ProofSpec` with one verifier call |
| PlonkComposite.ExtractDecoded | packages/zk/circuits/plonk-wrappers/plonk-composite/src/lib.rs:99-126 | succeeds exactly when all four inputs are present and non-empty, with their first elements |
| PlonkComposite.ExtractionOrder | packages/zk/circuits/plonk-wrappers/plonk-composite/src/lib.rs:99-126 | for age, min_age, max_age, study_id in turn, the first absent key gives "Missing 'k' input" and the first empty list gives "Invalid 'k' value" |
| PlonkComposite.Prepare | packages/zk/circuits/plonk-wrappers/plonk-composite/src/lib.rs:96-145 | a decoding failure becomes "Failed to deserialize inputs: …"; an extraction error is returned unchanged; on success the public inputs are the circuit's `instances()`, `[min_age, max_age, study_id]` |
| PlonkComposite.PrepareMatchesComposite | packages/zk/circuits/plonk-wrappers/plonk-composite/src/lib.rs:128-145 | on decoded inputs the wrapper accepts exactly what the `composite` crate accepts, builds the same circuit, and with all inputs present returns the same validation error |
| PlonkComposite.ProveWithParamsSpec | packages/zk/circuits/plonk-wrappers/plonk-composite/src/lib.rs:91-154 | a failed check is returned without reaching the prover; it panics exactly when the checks pass and the prover fails; when the checks pass and the prover succeeds, the result is "Serialization failed: …" if the public inputs do not serialize, and otherwise Ok with the prover's proof and the serialized `[min_age, max_age, study_id]` |
| PlonkComposite.ProveWithParams | packages/zk/circuits/plonk-wrappers/plonk-composite/src/lib.rs:91-154 | computes `ProveWithParamsSpec`; the prover is called exactly when the checks pass, with the circuit and `[min_age, max_age, study_id]` |
| PlonkComposite.VerifyWithParamsSpec | packages/zk/circuits/plonk-wrappers/plonk-composite/src/lib.rs:200-213 | Err exactly when the public-input bytes fail to decode, with the decoder's message; otherwise Ok(whether halo2 verifies), for a decoded vector of any length |
| PlonkComposite.VerifyWithParams | packages/zk/circuits/plonk-wrappers/plonk-composite/src/lib.rs:200-213 | computes `VerifyWithParamsSpec`; the verifier is called exactly when decoding succeeds, on the decoded vector |
| PlonkComposite.EmittedInputsDecode | packages/zk/circuits/plonk-wrappers/plonk-composite/src/lib.rs:145-151 | with a round-tripping codec, the emitted public-input bytes decode to `[min_age, max_age, study_id]` of the decoded inputs |
| PlonkComposite.ProvedThenVerified | packages/zk/circuits/plonk-wrappers/plonk-composite/src/lib.rs:147-153 | with a round-tripping codec and a complete halo2 prover/verifier pair, whatever `prove_with_params` emits passes `verify_with_params` with `Ok(true)` |

## Left out

- Proving-system internals are out of scope: plonkish_backend and halo2 `prove`/`verify`, KZG, SHPLONK, the Keccak256 and Blake2b transcripts. They are foreign cryptographic code, modelled only as uninterpreted functions with call logs. Completeness of a backend is a hypothesis (`Complete`), never a fact.
- Randomness is not modelled. The plonkish crates pass `std_rng()` from `plonkish_backend::util::test` (composite/src/lib.rs:38) to both the backend's `prove` and its `verify` (composite/src/lib.rs:323, 355; diagnosis/src/lib.rs:294, 325). The wrapper passes `OsRng` to `create_proof`. The requirement of fresh randomness for every proof is not modelled, since `prove`/`verify` are uninterpreted.
- Parameter loading is I/O and is not modelled. This covers SRS and key loading in the `prove`/`verify` entry points of the `composite` and `diagnosis` crates and of the wrapper, for both native and wasm32.
- The `_srs` parameter of `generate_proof`/`verify_proof` is not modelled, because it is unused.
- The serialization module (`deserialize_circuit_inputs`, bincode of `InputsSerializationWrapper`) is not part of this model. It is an abstract `Codec`, and its round trip is only a hypothesis (`RoundTrips`); no byte format is asserted.
- `CircuitExt::rand` is not modelled: it is `unimplemented!()`.
- `MAX_DIAGNOSES` is not modelled: it is declared but never enforced.
- Region or layouter errors from halo2 (`?` inside `synthesize`) are not modelled. The region is a plain cell store.
- Rotations, the floor planner and the permutation argument are not modelled, so `enable_equality` only records the column.
- The archived crates (`eligibility-halo2`, `proof-generator-wasm`) are not modelled: non-functional and superseded.
- Diagnosis.HashDiagnosisCode: the `u64` sum is modelled as wrapping modulo 2^64, as release builds do; a debug build would panic instead. The exact-sum promise is stated only for codes shorter than 2^54 characters, where no overflow can occur.
- The backend error text of "Proof generation failed: {:?}" and "Verification failed: {:?}" is the backend's own error string, since the `Debug` format of foreign errors is unknown. The same applies to the panic message of `expect("prover should not fail")`.
- Two scenarios cannot be decided without the proving system, so they stay hypotheses about it: a proof checked against permuted public inputs being rejected, and a composite proof for a different code being rejected. The model shows such inputs reach the backend, with the arity check in the plonkish crates and without it in the wrapper.
- Real range or set-membership constraints are absent from the code, and the model does not add them.
