/** The ptReal segment mask: folding indices into bits, and the three bytes the frame carries (coordinator.py, api/ble_packet.py). */
module SegmentMask {
  import opened Scaling

  /** Bit i of a mask. */
  predicate Bit(mask: nat, i: nat)
    decreases i
  {
    if i == 0 then mask % 2 == 1 else Bit(mask / 2, i - 1)
  }

  /** a | b */
  function Or(a: nat, b: nat): nat
    decreases a + b
  {
    if a == 0 && b == 0 then 0
    else 2 * Or(a / 2, b / 2) + if a % 2 == 1 || b % 2 == 1 then 1 else 0
  }

  /** 1 << i */
  function ShiftOne(i: nat): Pos {
    if i == 0 then 1 else 2 * ShiftOne(i - 1)
  }

  /** mask >> i */
  function ShiftRight(mask: nat, i: nat): nat
    decreases i
  {
    if i == 0 then mask else ShiftRight(mask / 2, i - 1)
  }

  /** Byte number k of the frame's mask. */
  function MaskByte(mask: nat, k: nat): nat {
    ShiftRight(mask, 8 * k) % 256
  }

  lemma OrHalves(a: nat, b: nat)
    ensures Or(a, b) / 2 == Or(a / 2, b / 2)
    ensures Or(a, b) % 2 == 1 <==> a % 2 == 1 || b % 2 == 1
  {
  }

  lemma {:induction false} OrBit(a: nat, b: nat, i: nat)
    ensures Bit(Or(a, b), i) <==> Bit(a, i) || Bit(b, i)
    decreases i
  {
    OrHalves(a, b);
    hide Or;
    if i > 0 { OrBit(a / 2, b / 2, i - 1); }
  }

  lemma {:induction false} ShiftOneBit(k: nat, i: nat)
    ensures Bit(ShiftOne(k), i) <==> i == k
    decreases i
  {
    if i > 0 {
      if k == 0 {
        ZeroBit(i - 1);
      } else {
        ShiftOneBit(k - 1, i - 1);
      }
    }
  }

  lemma {:induction false} ZeroBit(i: nat)
    ensures !Bit(0, i)
  {
    if i > 0 { ZeroBit(i - 1); }
  }

  /** Two masks with the same bits are the same mask. */
  lemma {:induction false} BitsDetermine(a: nat, b: nat)
    requires forall i: nat :: Bit(a, i) <==> Bit(b, i)
    ensures a == b
    decreases a + b
  {
    if a != 0 || b != 0 {
      assert Bit(a, 0) <==> Bit(b, 0);
      forall i: nat ensures Bit(a / 2, i) <==> Bit(b / 2, i) {
        assert Bit(a, i + 1) <==> Bit(b, i + 1);
      }
      BitsDetermine(a / 2, b / 2);
    }
  }

  /** mask |= 1 << index, over a command's segments: bit i is set exactly when segment i is in the command. */
  method FoldMask(indices: seq<nat>) returns (mask: nat)
    ensures forall i: nat :: Bit(mask, i) <==> i in indices
  {
    mask := 0;
    forall i: nat ensures !Bit(0, i) {
      ZeroBit(i);
    }
    for n := 0 to |indices|
      invariant forall i: nat :: Bit(mask, i) <==> i in indices[..n]
    {
      var next := Or(mask, ShiftOne(indices[n]));
      forall i: nat ensures Bit(next, i) <==> i in indices[..n + 1] {
        OrBit(mask, ShiftOne(indices[n]), i);
        ShiftOneBit(indices[n], i);
        assert indices[..n + 1] == indices[..n] + [indices[n]];
      }
      mask := next;
    }
    assert indices[..|indices|] == indices;
  }

  /** So the mask does not depend on the order or repetition of the segments. */
  lemma MaskDependsOnSetOnly(first: seq<nat>, second: seq<nat>, a: nat, b: nat)
    requires forall i: nat :: Bit(a, i) <==> i in first
    requires forall i: nat :: Bit(b, i) <==> i in second
    ensures (forall i: nat :: i in first <==> i in second) <==> a == b
  {
    if forall i: nat :: i in first <==> i in second {
      BitsDetermine(a, b);
    }
    if a == b {
      forall i: nat ensures i in first <==> i in second {
        assert Bit(a, i) <==> i in first;
      }
    }
  }

  lemma {:induction false} ShiftRightBit(mask: nat, s: nat, i: nat)
    ensures Bit(ShiftRight(mask, s), i) <==> Bit(mask, i + s)
    decreases s
  {
    if s > 0 { ShiftRightBit(mask / 2, s - 1, i); }
  }

  lemma {:induction false} LowBits(mask: nat, width: nat, j: nat)
    requires j < width
    ensures Bit(mask % ShiftOne(width), j) <==> Bit(mask, j)
    decreases j
  {
    var w := ShiftOne(width - 1);
    HalfOfRest(mask, w);
    if j > 0 { LowBits(mask / 2, width - 1, j - 1); }
  }

  lemma HalfOfRest(mask: nat, w: Pos)
    ensures (mask % (2 * w)) / 2 == (mask / 2) % w
    ensures (mask % (2 * w)) % 2 == mask % 2
  {
    var q, rest := mask / (2 * w), mask % (2 * w);
    FloorParts(mask, 2 * w);
    assert Mul(q, 2 * w) == 2 * Mul(q, w);
    var half := mask / 2;
    FloorParts(half, w);
    hide Mul;
    FloorIs(half, w, q);
  }

  /** The three mask bytes of the frame name exactly the command's segments below 24. */
  lemma FrameNamesSegments(indices: seq<nat>, mask: nat, k: nat, j: nat)
    requires forall i: nat :: Bit(mask, i) <==> i in indices
    requires k < 3 && j < 8
    ensures Bit(MaskByte(mask, k), j) <==> 8 * k + j in indices
    ensures MaskByte(mask, k) < 256
  {
    assert ShiftOne(8) == 256;
    LowBits(ShiftRight(mask, 8 * k), 8, j);
    ShiftRightBit(mask, 8 * k, j);
    assert Bit(mask, j + 8 * k) <==> j + 8 * k in indices;
  }
}
