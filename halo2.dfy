/** The part of the halo2 front end the circuits are written against:
    witness values, columns, gate expressions and their evaluation on a row,
    the constraint system that `configure` fills in, and the region that
    `synthesize` assigns into. */
module Halo2 {
  import opened Field

  /** `halo2_proofs::circuit::Value`: a witness that is known (proving) or
      not (key generation). */
  datatype Value<T> = Unknown | Known(value: T)

  datatype Column = Advice(index: nat) | Instance(index: nat)

  /** A gate polynomial over the current row (`Rotation::cur()`). */
  datatype Expr =
    | Selector(index: nat)
    | AdviceQuery(column: nat)
    | Difference(left: Expr, right: Expr)
    | Product(left: Expr, right: Expr)

  /** One row of an assignment: which selectors are on, what each advice
      column holds. */
  datatype Row = Row(selectors: nat -> bool, advice: nat -> Fr)

  /** The value of a gate polynomial on a row; a simple selector is 1 when
      enabled and 0 otherwise. */
  function Eval(e: Expr, row: Row): Fr
  {
    match e
    case Selector(i) => if row.selectors(i) then 1 else 0
    case AdviceQuery(c) => row.advice(c)
    case Difference(l, r) => Sub(Eval(l, row), Eval(r, row))
    case Product(l, r) => Mul(Eval(l, row), Eval(r, row))
  }

  datatype Gate = Gate(name: string, polys: seq<Expr>)

  /** A row satisfies a set of gates when every polynomial vanishes on it. */
  predicate Satisfies(gates: seq<Gate>, row: Row)
  {
    forall i, j :: 0 <= i < |gates| && 0 <= j < |gates[i].polys| ==> Eval(gates[i].polys[j], row) == 0
  }

  /** `s * (x - x)`: the placeholder gate shape both eligibility circuits use. */
  function SelfDifferenceGate(name: string, selector: nat, column: nat): Gate
  {
    Gate(name, [Product(Selector(selector), Difference(AdviceQuery(column), AdviceQuery(column)))])
  }

  /** Such a gate vanishes on every row, whatever the selector and values:
      it constrains nothing. */
  lemma SelfDifferenceVanishes(name: string, selector: nat, column: nat, row: Row)
    ensures Satisfies([SelfDifferenceGate(name, selector, column)], row)
  {
    var p := SelfDifferenceGate(name, selector, column).polys[0];
    assert Eval(p.right, row) == 0;
  }

  /** The same, for all rows at once. */
  lemma SelfDifferenceAlwaysVanishes(name: string, selector: nat, column: nat)
    ensures forall row :: Satisfies([SelfDifferenceGate(name, selector, column)], row)
  {
    forall row
      ensures Satisfies([SelfDifferenceGate(name, selector, column)], row)
    {
      SelfDifferenceVanishes(name, selector, column, row);
    }
  }

  /** `Halo2Circuit::new(k, circuit)`: a circuit wrapped for a backend, with
      2^k rows. */
  datatype Halo2Circuit<C> = Halo2Circuit(k: nat, circuit: C)

  /** `ConstraintSystem`, as far as `configure` uses it: column and selector
      allocation, equality-enabled columns and gates. */
  class ConstraintSystem {
    var numAdvice: nat
    var numInstance: nat
    var numSelectors: nat
    var equality: set<Column>
    var gates: seq<Gate>

    constructor ()
      ensures numAdvice == 0 && numInstance == 0 && numSelectors == 0
      ensures equality == {} && gates == []
    {
      numAdvice, numInstance, numSelectors := 0, 0, 0;
      equality, gates := {}, [];
    }

    method AdviceColumn() returns (c: nat)
      modifies this
      ensures c == old(numAdvice) && numAdvice == old(numAdvice) + 1
      ensures numInstance == old(numInstance) && numSelectors == old(numSelectors)
      ensures equality == old(equality) && gates == old(gates)
    {
      c := numAdvice;
      numAdvice := numAdvice + 1;
    }

    method InstanceColumn() returns (c: nat)
      modifies this
      ensures c == old(numInstance) && numInstance == old(numInstance) + 1
      ensures numAdvice == old(numAdvice) && numSelectors == old(numSelectors)
      ensures equality == old(equality) && gates == old(gates)
    {
      c := numInstance;
      numInstance := numInstance + 1;
    }

    method NewSelector() returns (s: nat)
      modifies this
      ensures s == old(numSelectors) && numSelectors == old(numSelectors) + 1
      ensures numAdvice == old(numAdvice) && numInstance == old(numInstance)
      ensures equality == old(equality) && gates == old(gates)
    {
      s := numSelectors;
      numSelectors := numSelectors + 1;
    }

    method EnableEquality(c: Column)
      modifies this
      ensures equality == old(equality) + {c}
      ensures numAdvice == old(numAdvice) && numInstance == old(numInstance)
      ensures numSelectors == old(numSelectors) && gates == old(gates)
    {
      equality := equality + {c};
    }

    method CreateGate(g: Gate)
      modifies this
      ensures gates == old(gates) + [g]
      ensures numAdvice == old(numAdvice) && numInstance == old(numInstance)
      ensures numSelectors == old(numSelectors) && equality == old(equality)
    {
      gates := gates + [g];
    }
  }

  /** A region being laid out: the enabled (selector, row) pairs and the
      assigned (column, row) cells. */
  class Region {
    var enabled: set<(nat, nat)>
    var cells: map<(Column, nat), Value<Fr>>

    constructor ()
      ensures enabled == {} && cells == map[]
    {
      enabled, cells := {}, map[];
    }

    method EnableSelector(selector: nat, row: nat)
      modifies this
      ensures enabled == old(enabled) + {(selector, row)}
      ensures cells == old(cells)
    {
      enabled := enabled + {(selector, row)};
    }

    method AssignAdvice(column: nat, row: nat, v: Value<Fr>)
      modifies this
      ensures cells == old(cells)[(Advice(column), row) := v]
      ensures enabled == old(enabled)
    {
      cells := cells[(Advice(column), row) := v];
    }
  }
}
