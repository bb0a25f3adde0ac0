/** Splitting a send queue into equal blocks, one per recycled copy of the program. */
module Rounding {
  import opened Words

  /** What the constructor leaves behind: a message and an unusable object, a division by zero, or a split. */
  datatype Outcome = TooSmall | ZeroDivide | Blocks(wqes: nat, dups: nat)

  ghost predicate LeastDivisorFrom(d: nat, low: nat, n: nat) {
    && 0 < d && low <= d && n % d == 0
    && forall e: nat :: 0 < e && low <= e < d ==> n % e != 0
  }

  method Split(num: nat, sqCnt: nat) returns (r: Outcome)
    ensures r.TooSmall? <==> num > sqCnt
    ensures r.ZeroDivide? <==> num == 0
    ensures r.Blocks? ==> LeastDivisorFrom(r.wqes, num, sqCnt) && r.wqes <= sqCnt
    ensures r.Blocks? ==> r.dups >= 1 && r.dups * r.wqes == sqCnt
  {
    if num > sqCnt {
      return TooSmall;
    }
    var rounded := num;
    while rounded != 0 && sqCnt % rounded != 0
      invariant num <= rounded <= sqCnt
      invariant num == 0 ==> rounded == 0
      invariant forall e: nat :: 0 < e && num <= e < rounded ==> sqCnt % e != 0
      decreases sqCnt - rounded
    {
      if rounded == sqCnt {
        ModUnique(sqCnt, sqCnt, 1, 0);
      }
      rounded := rounded + 1;
    }
    if rounded == 0 {
      return ZeroDivide;
    }
    assert sqCnt / rounded * rounded == sqCnt;
    r := Blocks(rounded, sqCnt / rounded);
  }

  /** The least power of two that is at least n. */
  lemma {:induction false} PowerAbove(n: nat) returns (p: nat)
    requires n > 0
    ensures IsPow2(p) && n <= p < 2 * n
  {
    if n == 1 {
      p := 1;
    } else {
      var h := PowerAbove((n + 1) / 2);
      p := 2 * h;
      assert p / 2 == h;
    }
  }

  /** On a power-of-two queue the rounding wastes less than half a block. */
  lemma {:induction false} LittleWaste(num: nat, sqCnt: nat, wqes: nat)
    requires 0 < num <= sqCnt && IsPow2(sqCnt)
    requires LeastDivisorFrom(wqes, num, sqCnt)
    ensures num <= wqes < 2 * num
  {
    var p := PowerAbove(num);
    if p <= sqCnt {
      Pow2Divides(p, sqCnt);
    } else {
      ModUnique(sqCnt, sqCnt, 1, 0);
    }
  }

  /** On a power-of-two queue the block and the number of copies are powers of two. */
  lemma {:induction false} Pow2Split(sqCnt: nat, wqes: nat, dups: nat)
    requires IsPow2(sqCnt) && dups * wqes == sqCnt
    ensures IsPow2(wqes) && IsPow2(dups)
  {
    FactorOfPow2(dups, wqes, sqCnt);
    FactorOfPow2(wqes, dups, sqCnt) by {
      assert wqes * dups == dups * wqes;
    }
  }

  /** The block is recycled, that is at least two copies exist, exactly when the program fills at most half the queue. */
  lemma {:induction false} RecycledIffHalf(num: nat, sqCnt: nat, wqes: nat, dups: nat)
    requires 0 < num <= sqCnt && IsPow2(sqCnt)
    requires LeastDivisorFrom(wqes, num, sqCnt) && dups * wqes == sqCnt
    ensures dups >= 2 <==> num <= sqCnt / 2
  {
    if num <= sqCnt / 2 {
      Pow2Divides(sqCnt / 2, sqCnt);
      assert wqes <= sqCnt / 2;
      assert dups < 2 ==> dups * wqes <= wqes;
    } else if dups >= 2 {
      MulGrows(dups - 1, wqes);
    }
  }
}
