/** Go's machine integers, as far as slots use them: uint64 slots and 64-bit int products. */
module Machine {

  const WORD := 0x1_0000_0000_0000_0000
  const HALF := 0x8000_0000_0000_0000

  /** A beacon-chain slot: a uint64. */
  type Slot = x: int | 0 <= x < 0x1_0000_0000_0000_0000

  /** Go's int on a 64-bit platform. */
  type GoInt = x: int | -0x8000_0000_0000_0000 <= x < 0x8000_0000_0000_0000

  /** The configured known_gaps increment; zero makes the program divide by zero. */
  type Increment = x: int | -0x8000_0000_0000_0000 <= x < 0x8000_0000_0000_0000 && x != 0 witness 1

  /** uint64(x): reduction modulo 2^64. */
  function ToSlot(x: int): Slot {
    x % WORD
  }

  /** int(x): the two's complement reading of the low 64 bits. */
  function ToInt(x: int): GoInt {
    var u := x % WORD;
    if u < HALF then u else u - WORD
  }

  lemma SlotIsItself(x: Slot)
    ensures ToSlot(x) == x
  {
  }

  /** Slot.PlusInt: the int is converted to uint64, then added with wrap-around. */
  function PlusInt(s: Slot, v: GoInt): Slot {
    ToSlot(s + ToSlot(v))
  }

  /** The quotient rounded up. */
  function CeilDiv(d: nat, u: nat): nat
    requires u > 0
  {
    if d % u == 0 then d / u else d / u + 1
  }

  lemma ModAbsorbs(x: int, k: int)
    ensures (x + k * WORD) % WORD == x % WORD
  {
  }

  lemma MulMono(a: int, b: int, u: int)
    requires a <= b && 0 <= u
    ensures a * u <= b * u
  {
  }

  lemma DivBounds(d: int, u: int)
    requires u > 0
    ensures (d / u) * u <= d < (d / u + 1) * u
    ensures d == (d / u) * u + d % u
  {
  }

  /** The quotient is determined by the multiples around the dividend. */
  lemma DivUnique(d: int, u: int, q: int)
    requires u > 0 && q * u <= d < (q + 1) * u
    ensures d / u == q
  {
    DivBounds(d, u);
    if d / u < q {
      MulMono(d / u + 1, q, u);
    } else if d / u > q {
      MulMono(q + 1, d / u, u);
    }
  }

  /** An int product that overflowed still adds the right number of slots modulo 2^64. */
  lemma PlusIntIsModular(s: Slot, inc: GoInt, i: int)
    ensures PlusInt(s, ToInt(i * inc)) == (s + i * ToSlot(inc)) % WORD
  {
    var p := i * inc;
    var u := ToSlot(inc);
    assert ToSlot(ToInt(p)) == p % WORD;
    var c := if inc < 0 then 1 else 0;
    assert u == inc + c * WORD;
    assert i * u == p + (i * c) * WORD by {
      assert i * (inc + c * WORD) == i * inc + i * c * WORD;
    }
    DivBounds(p, WORD);
    var q := p / WORD;
    assert s + i * u == (s + p % WORD) + (q + i * c) * WORD by {
      assert (q + i * c) * WORD == q * WORD + (i * c) * WORD;
    }
    ModAbsorbs(s + p % WORD, q + i * c);
  }
}
