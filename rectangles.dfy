/**
  The `Rectangle` struct and its `impl` block: `area`, `can_hold` and the
  associated constructor `square`, plus the sample rectangles of `main`.
*/
module Rectangles {
  import opened RustInts

  datatype Rectangle = Rectangle(width: U32, height: U32)

  /**
    The outcome of a `u32` multiplication. Rust panics ("attempt to multiply
    with overflow") when the product does not fit in `u32`; `Overflow` stands
    for that panic.
  */
  datatype Product = Fits(value: U32) | Overflow

  /** `Rectangle::area`: `self.width * self.height`, checked for overflow. */
  function Area(r: Rectangle): (a: Product)
    ensures a.Fits? <==> r.width * r.height <= U32_MAX
    ensures a.Fits? ==> a.value == r.width * r.height
  {
    var p := r.width * r.height;
    if p <= U32_MAX then Fits(p) else Overflow
  }

  /** `Rectangle::can_hold`: strictly wider and strictly taller. */
  predicate CanHold(r: Rectangle, other: Rectangle) {
    r.width > other.width && r.height > other.height
  }

  /** `Rectangle::square`. */
  function Square(size: U32): (r: Rectangle)
    ensures r.width == size && r.height == size
  {
    Rectangle(size, size)
  }

  /** No rectangle can hold itself. */
  lemma CanHoldIrreflexive(r: Rectangle)
    ensures !CanHold(r, r)
  {
  }

  /** If `a` can hold `b`, then `b` cannot hold `a`. */
  lemma CanHoldAsymmetric(a: Rectangle, b: Rectangle)
    ensures CanHold(a, b) ==> !CanHold(b, a)
  {
  }

  /** Containment chains: if `a` holds `b` and `b` holds `c`, then `a` holds `c`. */
  lemma CanHoldTransitive(a: Rectangle, b: Rectangle, c: Rectangle)
    requires CanHold(a, b) && CanHold(b, c)
    ensures CanHold(a, c)
  {
  }

  /** `can_hold` is a strict partial order on all rectangles. */
  lemma CanHoldIsStrictPartialOrder()
    ensures forall r :: !CanHold(r, r)
    ensures forall a, b, c :: CanHold(a, b) && CanHold(b, c) ==> CanHold(a, c)
  {
  }

  /** Strictly smaller sides give a strictly smaller product. */
  lemma ProductStrictlyIncreasing(w: nat, h: nat, w': nat, h': nat)
    requires w < w' && h < h'
    ensures w * h < w' * h'
  {
  }

  /** Multiplying by a natural number preserves `<=`. */
  lemma MulLeftMonotone(w: nat, h: nat, h': nat)
    requires h <= h'
    ensures w * h <= w * h'
  {
  }

  /**
    A rectangle that can hold another has a strictly larger area; in
    particular, when the holder's area does not overflow, neither does the
    held one's.
  */
  lemma CanHoldAreaGreater(a: Rectangle, b: Rectangle)
    requires CanHold(a, b)
    ensures b.width * b.height < a.width * a.height
    ensures Area(a).Fits? ==> Area(b).Fits? && Area(b).value < Area(a).value
  {
    ProductStrictlyIncreasing(b.width, b.height, a.width, a.height);
  }

  /** A square's area is the size squared; it overflows from size 65536 on. */
  lemma SquareArea(size: U32)
    ensures Area(Square(size)).Fits? <==> size <= 0xFFFF
    ensures Area(Square(size)).Fits? ==> Area(Square(size)).value == size * size
  {
    if size <= 0xFFFF {
      MulLeftMonotone(size, size, 0xFFFF);
      MulLeftMonotone(0xFFFF, size, 0xFFFF);
    } else {
      MulLeftMonotone(size, 0x1_0000, size);
      MulLeftMonotone(0x1_0000, 0x1_0000, size);
    }
  }

  /** Squares are ordered by `can_hold` exactly as their sizes are. */
  lemma SquareCanHold(n: U32, m: U32)
    ensures CanHold(Square(n), Square(m)) <==> n > m
  {
  }

  /** The rectangles `main` builds. */
  const R1: Rectangle := Rectangle(30, 50)
  const R2: Rectangle := Rectangle(10, 40)
  const R3: Rectangle := Rectangle(60, 45)
  const S1: Rectangle := Square(5)

  /**
    What `main` prints: rect1 holds rect2 but not rect3, and rect1's area is
    1500; the square `s1` it builds is 5 by 5.
  */
  lemma MainSamples()
    ensures CanHold(R1, R2)
    ensures !CanHold(R1, R3)
    ensures Area(R1) == Fits(1500)
    ensures S1 == Rectangle(5, 5)
  {
  }
}
