/** The scalar field `Fr` of the BN254 curve (`halo2curves::bn256::Fr`),
    its arithmetic, its byte representation, and `field_to_u64`. */
module Field {
  import opened Bytes
  import opened Results

  const Modulus: nat := 21888242871839275222246405745257275088548364400416034343698204186575808495617

  type Fr = x: nat | x < Modulus

  function Add(a: Fr, b: Fr): Fr
  {
    (a + b) % Modulus
  }

  /** Subtraction modulo the prime (Dafny's `%` is never negative). */
  function Sub(a: Fr, b: Fr): Fr
  {
    (a - b) % Modulus
  }

  function Mul(a: Fr, b: Fr): Fr
  {
    (a * b) % Modulus
  }

  /** `PrimeField::to_repr`: the canonical 32-byte little-endian encoding. */
  function Repr(f: Fr): (r: seq<Byte>)
    ensures |r| == 32
  {
    LeBytes(f, 32)
  }

  lemma {:induction false} ReprDecodes(f: Fr)
    ensures LeValue(Repr(f)) == f
  {
    LeValueOfLeBytes(f, 32);
    Pow256Of32();
  }

  /** What `field_to_u64` computes from a representation: the `u64` whose
      little-endian bytes are its first eight, or an error for a
      representation shorter than eight bytes. */
  function ToU64(repr: seq<Byte>): (r: Result<U64>)
    ensures r.Err? <==> |repr| < 8
    ensures r.Err? ==> r.error == "Field element too small"
    ensures r.Ok? ==> r.value == LeValue(repr[..8]) && LeValue(repr[..8]) < TwoTo64
  {
    if |repr| < 8 then Err("Field element too small")
    else
      LeValueBound(repr[..8]);
      Pow256Of8();
      Ok(LeValue(repr[..8]))
  }

  /** On a field element `field_to_u64` never fails and keeps the value
      modulo 2^64: the bits above 64 are dropped. */
  lemma FieldToU64Low(f: Fr)
    ensures ToU64(Repr(f)) == Ok(f % TwoTo64)
  {
    LeBytesPrefix(f, 32, 8);
    LeValueOfLeBytes(f, 8);
    Pow256Of8();
  }

  /** `field_to_u64`: copy the first eight bytes of the representation into a
      local 8-byte buffer (`copy_from_slice`) and read it as a little-endian
      `u64` (`u64::from_le_bytes`). */
  method FieldToU64(repr: seq<Byte>) returns (r: Result<U64>)
    ensures r == ToU64(repr)
  {
    if |repr| < 8 {
      return Err("Field element too small");
    }
    var buffer := new Byte[8];
    for i := 0 to 8
      invariant buffer[..i] == repr[..i]
    {
      buffer[i] := repr[i];
    }
    assert buffer[..] == repr[..8];
    LeValueBound(buffer[..]);
    Pow256Of8();
    r := Ok(LeValue(buffer[..]));
  }
}
